/** The life of a capture request (mindwm/src/capture.rs): a client makes a frame object, asks
    once for a copy into its buffer, and is told once how that went. Rendering itself is
    foreign; what each pass of it answered is a parameter. */
module CaptureQueue {
  import opened Common
  import opened CaptureRegion

  const MAX_PENDING := 32
  const PATIENCE := 5000
  const CACHE_LIFE := 2000

  type Frame = nat
  type Manager = nat

  datatype Shape = Shape(mode: Size, scale: real, transform: Transform)
  datatype Info = Info(output: nat, shape: Shape, region: Rect, cursor: bool)
  datatype FrameData = FrameData(info: Option<Info>, manager: Manager, used: bool)
  datatype Request = Request(frame: Frame, buffer: nat, info: Info, manager: Manager, damage: bool, since: nat)
  datatype Key = Key(output: nat, cursor: bool)
  datatype Cache = Cache(context: nat, shape: Shape, generation: nat, lastUsed: nat)

  /** `Dropped`: the frame object was gone, so there was nobody to tell. */
  datatype Outcome = Ready | Failed | Dropped

  datatype Reply = Accepted | AlreadyUsed | InvalidBuffer | FailedAtOnce

  /** What happened so far: the frames queued, those turned away, and what the queued ones
      were told; how often each target was drawn with changes, and how often it had been when
      a client last got a copy. */
  datatype History = History(
    accepted: seq<Frame>,
    refused: seq<Frame>,
    settled: seq<(Frame, Outcome)>,
    draws: map<Key, nat>,
    seen: map<(Manager, Key), nat>)

  datatype State = State(
    frames: map<Frame, FrameData>,
    pending: seq<Request>,
    caches: map<Key, Cache>,
    last: map<(Manager, Key), (nat, Rect)>,
    generation: nat,
    past: History)

  const INITIAL := State(map[], [], map[], map[], 0, History([], [], [], map[], map[]))

  datatype Alive = Alive(frames: set<Frame>, buffers: set<nat>)

  // ---------------------------------------------------------------- sorting requests

  /** The three questions the source asks of a pending request. */
  datatype Test =
    | Expired(outputs: set<nat>, blocked: bool, alive: Alive, now: nat)
    | Wants(key: Key)
    | Unusable(shape: Shape, alive: Alive)

  predicate Meets(p: Request, test: Test) {
    match test
    case Expired(outputs, blocked, alive, now) =>
      || blocked
      || p.frame !in alive.frames
      || p.buffer !in alive.buffers
      || p.info.output !in outputs
      || (!p.damage && now - p.since > PATIENCE)
    case Wants(key) => p.info.output == key.output && p.info.cursor == key.cursor
    case Unusable(shape, alive) => p.info.shape != shape || p.frame !in alive.frames || p.buffer !in alive.buffers
  }

  function Select(ps: seq<Request>, test: Test, want: bool): (r: seq<Request>)
    ensures forall p :: p in r <==> p in ps && Meets(p, test) == want
    ensures |r| <= |ps|
  {
    if ps == [] then []
    else if Meets(ps[0], test) == want then [ps[0]] + Select(ps[1..], test, want)
    else Select(ps[1..], test, want)
  }

  function FailOne(p: Request, alive: Alive): (Frame, Outcome) {
    (p.frame, if p.frame in alive.frames then Failed else Dropped)
  }

  function Fail(ps: seq<Request>, alive: Alive): seq<(Frame, Outcome)> {
    if ps == [] then [] else [FailOne(ps[0], alive)] + Fail(ps[1..], alive)
  }

  // ---------------------------------------------------------------------- requests

  datatype Output = Output(id: nat, mapped: bool, mode: Option<Size>, scale: real, transform: Transform)

  /** The session and the output as a capture finds them, and what it asks for. */
  datatype Look = Look(locked: bool, blank: bool, kiosk: bool, output: Option<Output>, cursor: bool,
      requested: Option<Rect>)

  /** `capture_info`. */
  function CaptureInfo(look: Look): Option<Info> {
    if look.locked || look.blank || look.kiosk then None
    else if look.output.None? || !look.output.value.mapped || look.output.value.mode.None? then None
    else
      var o := look.output.value;
      match Region(o.mode.value, o.scale, o.transform, look.requested)
      case None => None
      case Some(region) => Some(Info(o.id, Shape(o.mode.value, o.scale, o.transform), region, look.cursor))
  }

  function Begin(s: State, f: Frame, manager: Manager, info: Option<Info>): State {
    var s := s.(frames := s.frames[f := FrameData(info, manager, info.None?)]);
    if info.None? then Refuse(s, f) else s
  }

  function Refuse(s: State, f: Frame): State {
    s.(past := s.past.(refused := s.past.refused + [f]))
  }

  function Settle(s: State, done: seq<(Frame, Outcome)>): State {
    s.(past := Tell(s.past, done))
  }

  function Tell(past: History, done: seq<(Frame, Outcome)>): History {
    past.(settled := past.settled + done)
  }

  lemma TellTwice(past: History, a: seq<(Frame, Outcome)>, b: seq<(Frame, Outcome)>)
    ensures Tell(Tell(past, a), b) == Tell(past, a + b) && Tell(past, []) == past
  {
  }

  /** A copy request: the frame, what is known of its buffer, and when it came. */
  datatype Ask = Ask(frame: Frame, buffer: nat, contents: Option<(Buffer, int)>, damage: bool, blocked: bool, now: nat)

  predicate Fits(a: Ask, region: Rect) {
    a.contents.Some? && ValidShm(a.contents.value.0, a.contents.value.1, Size(region.w, region.h))
  }

  function Copy(s: State, a: Ask): (State, Reply)
    requires a.frame in s.frames
  {
    var data := s.frames[a.frame];
    if data.used then (s, AlreadyUsed)
    else
      var s := s.(frames := s.frames[a.frame := data.(used := true)]);
      if data.info.None? then (Refuse(s, a.frame), FailedAtOnce)
      else if !Fits(a, data.info.value.region) then (Refuse(s, a.frame), InvalidBuffer)
      else if a.blocked || |s.pending| >= MAX_PENDING then (Refuse(s, a.frame), FailedAtOnce)
      else (Enqueue(s, Request(a.frame, a.buffer, data.info.value, data.manager, a.damage, a.now)), Accepted)
  }

  function Enqueue(s: State, p: Request): State {
    s.(pending := s.pending + [p], past := s.past.(accepted := s.past.accepted + [p.frame]))
  }

  /** `maintain`. */
  function Maintain(s: State, outputs: set<nat>, blocked: bool, alive: Alive, now: nat): State {
    var test := Expired(outputs, blocked, alive, now);
    var s := Settle(s, Fail(Select(s.pending, test, true), alive)).(pending := Select(s.pending, test, false));
    s.(caches := KeptCaches(s.caches, outputs, blocked, now))
  }

  function KeptCaches(caches: map<Key, Cache>, outputs: set<nat>, blocked: bool, now: nat): map<Key, Cache> {
    map k | k in caches && !blocked && k.output in outputs && now - caches[k].lastUsed < CACHE_LIFE :: caches[k]
  }

  // --------------------------------------------------------------------- rendering

  /** What a pass found and what the renderer answered: the output as it is now, whether a
      target could be made and bound, whether it was drawn and with changes, and the frames
      whose pixels were copied. */
  datatype Pass = Pass(shape: Option<Shape>, context: nat, created: bool, bound: bool, drawn: Option<bool>,
      copied: set<Frame>, alive: Alive, now: nat)

  predicate Replaces(caches: map<Key, Cache>, key: Key, shape: Shape, context: nat) {
    key !in caches || caches[key].context != context || caches[key].shape != shape
  }

  function Target(s: State, key: Key, shape: Shape, env: Pass): State {
    if Replaces(s.caches, key, shape, env.context)
    then s.(caches := s.caches[key := Cache(env.context, shape, 0, env.now)])
    else s.(caches := s.caches[key := s.caches[key].(lastUsed := env.now)])
  }

  function Count(draws: map<Key, nat>, key: Key): nat {
    if key in draws then draws[key] else 0
  }

  function Draw(s: State, key: Key, damaged: bool): State
    requires key in s.caches
  {
    if damaged then
      s.(generation := s.generation + 1,
         caches := s.caches[key := s.caches[key].(generation := s.generation + 1)],
         past := s.past.(draws := s.past.draws[key := Count(s.past.draws, key) + 1]))
    else s
  }

  /** A request for changes only waits when its client already has this very picture. */
  predicate HeldBack(s: State, key: Key, p: Request)
    requires key in s.caches
  {
    p.damage && (p.manager, key) in s.last && s.last[(p.manager, key)] == (s.caches[key].generation, p.info.region)
  }

  function DeliverOne(s: State, key: Key, p: Request, env: Pass): (r: State)
    requires key in s.caches
    ensures r.caches == s.caches
  {
    if HeldBack(s, key, p) then s.(pending := s.pending + [p])
    else if p.frame in env.copied then
      Settle(s, [(p.frame, Ready)]).(
        last := s.last[(p.manager, key) := (s.caches[key].generation, p.info.region)],
        past := s.past.(
          settled := s.past.settled + [(p.frame, Ready)],
          seen := s.past.seen[(p.manager, key) := Count(s.past.draws, key)]))
    else Settle(s, [FailOne(p, env.alive)])
  }

  function Deliver(s: State, key: Key, jobs: seq<Request>, env: Pass): State
    requires key in s.caches
    decreases |jobs|
  {
    if jobs == [] then s else Deliver(DeliverOne(s, key, jobs[0], env), key, jobs[1..], env)
  }

  function Jobs(s: State, key: Key, shape: Shape, env: Pass): seq<Request> {
    Select(Select(s.pending, Wants(key), true), Unusable(shape, env.alive), false)
  }

  /** The requests for `key` taken out, and those that no longer match the output failed. */
  function Take(s: State, key: Key, shape: Shape, env: Pass): State {
    var bad := Select(Select(s.pending, Wants(key), true), Unusable(shape, env.alive), true);
    Settle(s, Fail(bad, env.alive)).(pending := Select(s.pending, Wants(key), false))
  }

  function Work(s: State, key: Key, jobs: seq<Request>, shape: Shape, env: Pass): State {
    if Replaces(s.caches, key, shape, env.context) && !env.created then Settle(s, Fail(jobs, env.alive))
    else
      var s := Target(s, key, shape, env);
      if !env.bound || env.drawn.None? then Settle(s, Fail(jobs, env.alive))
      else Deliver(Draw(s, key, env.drawn.value), key, jobs, env)
  }

  /** One turn of the loop in `render`. */
  function RenderPass(s: State, key: Key, env: Pass): State {
    if Select(s.pending, Wants(key), true) == [] || env.shape.None? then s
    else
      var jobs := Jobs(s, key, env.shape.value, env);
      var s := Take(s, key, env.shape.value, env);
      if jobs == [] then s else Work(s, key, jobs, env.shape.value, env)
  }

  function Render(s: State, output: nat, plain: Pass, cursor: Pass): State {
    RenderPass(RenderPass(s, Key(output, false), plain), Key(output, true), cursor)
  }

  // ------------------------------------------------------------------- conservation

  function Owners(ps: seq<Request>): multiset<Frame> {
    if ps == [] then multiset{} else multiset{ps[0].frame} + Owners(ps[1..])
  }

  function Told(done: seq<(Frame, Outcome)>): multiset<Frame> {
    if done == [] then multiset{} else multiset{done[0].0} + Told(done[1..])
  }

  lemma {:induction false} OwnersConcat(a: seq<Request>, b: seq<Request>)
    ensures Owners(a + b) == Owners(a) + Owners(b)
  {
    if a == [] {
      assert a + b == b;
    } else {
      assert (a + b)[1..] == a[1..] + b;
      OwnersConcat(a[1..], b);
    }
  }

  lemma {:induction false} ToldConcat(a: seq<(Frame, Outcome)>, b: seq<(Frame, Outcome)>)
    ensures Told(a + b) == Told(a) + Told(b)
  {
    if a == [] {
      assert a + b == b;
    } else {
      assert (a + b)[1..] == a[1..] + b;
      ToldConcat(a[1..], b);
    }
  }

  lemma {:induction false} FailTells(ps: seq<Request>, alive: Alive)
    ensures Told(Fail(ps, alive)) == Owners(ps)
  {
    if ps != [] {
      FailTells(ps[1..], alive);
      assert Fail(ps, alive)[1..] == Fail(ps[1..], alive);
    }
  }

  lemma {:induction false} SelectSplits(ps: seq<Request>, test: Test)
    ensures Owners(Select(ps, test, true)) + Owners(Select(ps, test, false)) == Owners(ps)
    ensures |Select(ps, test, true)| + |Select(ps, test, false)| == |ps|
  {
    if ps != [] {
      var p, rest := ps[0], ps[1..];
      SelectCons(p, rest, test);
      assert ps == [p] + rest;
      hide Select, Owners, Meets;
      SelectSplits(rest, test);
      OwnersCons(p, rest);
      OwnersCons(p, Select(rest, test, Meets(p, test)));
    }
  }

  lemma SelectCons(p: Request, rest: seq<Request>, test: Test)
    ensures Select([p] + rest, test, Meets(p, test)) == [p] + Select(rest, test, Meets(p, test))
    ensures Select([p] + rest, test, !Meets(p, test)) == Select(rest, test, !Meets(p, test))
  {
    assert ([p] + rest)[1..] == rest;
  }

  lemma OwnersCons(p: Request, ps: seq<Request>)
    ensures Owners([p] + ps) == multiset{p.frame} + Owners(ps)
  {
    assert ([p] + ps)[1..] == ps;
  }

  lemma ToldOne(f: Frame, o: Outcome)
    ensures Told([(f, o)]) == multiset{f}
  {
  }

  lemma OwnersOne(p: Request)
    ensures Owners([p]) == multiset{p.frame}
  {
  }

  /** Everything accepted that is still to be told or has been. */
  function Ledger(s: State): multiset<Frame> {
    Owners(s.pending) + Told(s.past.settled)
  }

  /** The region is a real part of a mode of allowed size. */
  ghost predicate Sized(info: Info) {
    Inside(info.region, info.shape.mode) && info.shape.mode.w * info.shape.mode.h <= MAX_PIXELS
  }

  lemma CaptureInfoSized(look: Look)
    ensures CaptureInfo(look).Some? ==> Sized(CaptureInfo(look).value)
    ensures CaptureInfo(look).Some? ==> !look.locked && !look.blank && !look.kiosk
  {
    if CaptureInfo(look).Some? {
      var o := look.output.value;
      RegionInside(o.mode.value, o.scale, o.transform, look.requested);
    }
  }

  /** A pending request is what its frame was made for. */
  ghost predicate Genuine(s: State, p: Request) {
    && p.frame in s.frames
    && s.frames[p.frame].used
    && s.frames[p.frame].info == Some(p.info)
    && s.frames[p.frame].manager == p.manager
  }

  ghost predicate Life(s: State) {
    && Ledger(s) == multiset(s.past.accepted)
    && NoDup(s.past.accepted + s.past.refused)
    && (forall f :: f in s.frames && s.frames[f].used <==> f in s.past.accepted + s.past.refused)
    && (forall f :: f in s.frames && s.frames[f].info.None? ==> s.frames[f].used)
    && (forall f :: f in s.frames && s.frames[f].info.Some? ==> Sized(s.frames[f].info.value))
    && (forall p :: p in s.pending ==> Genuine(s, p))
    && |s.pending| <= MAX_PENDING
  }

  /** Between `s` and `t` requests were only told about or put back. */
  ghost predicate Moves(s: State, t: State, jobs: seq<Request>) {
    && t.frames == s.frames
    && t.past.accepted == s.past.accepted
    && t.past.refused == s.past.refused
    && Ledger(t) == Ledger(s) + Owners(jobs)
    && s.past.settled <= t.past.settled
    && (forall p :: p in t.pending ==> p in s.pending || p in jobs)
    && |t.pending| <= |s.pending| + |jobs|
  }

  lemma MovesTrans(s: State, t: State, u: State, a: seq<Request>, b: seq<Request>)
    requires Moves(s, t, a) && Moves(t, u, b)
    ensures Moves(s, u, a + b)
  {
    OwnersConcat(a, b);
  }

  lemma SettleMoves(s: State, jobs: seq<Request>, alive: Alive)
    ensures Moves(s, Settle(s, Fail(jobs, alive)), jobs)
  {
    ToldConcat(s.past.settled, Fail(jobs, alive));
    FailTells(jobs, alive);
  }

  lemma DeliverOneMoves(s: State, key: Key, p: Request, env: Pass)
    requires key in s.caches
    ensures Moves(s, DeliverOne(s, key, p, env), [p])
  {
    OwnersOne(p);
    if HeldBack(s, key, p) {
      OwnersConcat(s.pending, [p]);
    } else {
      var o := if p.frame in env.copied then Ready else FailOne(p, env.alive).1;
      ToldOne(p.frame, o);
      ToldConcat(s.past.settled, [(p.frame, o)]);
    }
  }

  lemma {:induction false} DeliverMoves(s: State, key: Key, jobs: seq<Request>, env: Pass)
    requires key in s.caches
    ensures Moves(s, Deliver(s, key, jobs, env), jobs)
    decreases |jobs|
  {
    if jobs != [] {
      var t := DeliverOne(s, key, jobs[0], env);
      DeliverOneMoves(s, key, jobs[0], env);
      DeliverMoves(t, key, jobs[1..], env);
      MovesTrans(s, t, Deliver(t, key, jobs[1..], env), [jobs[0]], jobs[1..]);
      assert [jobs[0]] + jobs[1..] == jobs;
    }
  }

  lemma TargetMoves(s: State, key: Key, shape: Shape, env: Pass)
    ensures Moves(s, Target(s, key, shape, env), [])
    ensures key in Target(s, key, shape, env).caches
  {
  }

  lemma DrawMoves(s: State, key: Key, damaged: bool)
    requires key in s.caches
    ensures Moves(s, Draw(s, key, damaged), [])
    ensures key in Draw(s, key, damaged).caches
  {
  }

  lemma WorkMoves(s: State, key: Key, jobs: seq<Request>, shape: Shape, env: Pass)
    ensures Moves(s, Work(s, key, jobs, shape, env), jobs)
  {
    hide Moves, Target, Draw, Deliver, Fail, Settle;
    if Replaces(s.caches, key, shape, env.context) && !env.created {
      SettleMoves(s, jobs, env.alive);
    } else {
      var t := Target(s, key, shape, env);
      TargetMoves(s, key, shape, env);
      assert [] + jobs == jobs;
      if !env.bound || env.drawn.None? {
        SettleMoves(t, jobs, env.alive);
        MovesTrans(s, t, Settle(t, Fail(jobs, env.alive)), [], jobs);
      } else {
        var u := Draw(t, key, env.drawn.value);
        DrawMoves(t, key, env.drawn.value);
        var none: seq<Request> := [];
        assert none + none == none;
        MovesTrans(s, t, u, none, none);
        DeliverMoves(u, key, jobs, env);
        MovesTrans(s, u, Deliver(u, key, jobs, env), [], jobs);
      }
    }
  }

  /** From `s` to `t` the jobs were taken out, and others perhaps failed. */
  ghost predicate Leaves(s: State, t: State, jobs: seq<Request>) {
    && t.frames == s.frames
    && t.past.accepted == s.past.accepted
    && t.past.refused == s.past.refused
    && Ledger(t) + Owners(jobs) == Ledger(s)
    && s.past.settled <= t.past.settled
    && (forall p :: p in t.pending || p in jobs ==> p in s.pending)
    && |t.pending| + |jobs| <= |s.pending|
  }

  lemma TakeLeaves(s: State, key: Key, shape: Shape, env: Pass)
    ensures Leaves(s, Take(s, key, shape, env), Jobs(s, key, shape, env))
  {
    var mine := Select(s.pending, Wants(key), true);
    var bad := Select(mine, Unusable(shape, env.alive), true);
    SelectSplits(s.pending, Wants(key));
    SelectSplits(mine, Unusable(shape, env.alive));
    FailTells(bad, env.alive);
    ToldConcat(s.past.settled, Fail(bad, env.alive));
  }

  lemma LeavesMoves(s: State, t: State, u: State, jobs: seq<Request>)
    requires Leaves(s, t, jobs) && Moves(t, u, jobs)
    ensures Moves(s, u, [])
  {
  }

  lemma PassMoves(s: State, key: Key, env: Pass)
    ensures Moves(s, RenderPass(s, key, env), [])
  {
    if Select(s.pending, Wants(key), true) != [] && env.shape.Some? {
      hide Jobs, Take, Work, Select, Moves, Leaves;
      var jobs := Jobs(s, key, env.shape.value, env);
      var t := Take(s, key, env.shape.value, env);
      TakeLeaves(s, key, env.shape.value, env);
      WorkMoves(t, key, jobs, env.shape.value, env);
      if jobs == [] {
        NoMoves(t);
        LeavesMoves(s, t, t, jobs);
      } else {
        LeavesMoves(s, t, Work(t, key, jobs, env.shape.value, env), jobs);
      }
    }
  }

  lemma NoMoves(s: State)
    ensures Moves(s, s, [])
  {
  }

  lemma MaintainMoves(s: State, outputs: set<nat>, blocked: bool, alive: Alive, now: nat)
    ensures Moves(s, Maintain(s, outputs, blocked, alive, now), [])
  {
    var test := Expired(outputs, blocked, alive, now);
    SelectSplits(s.pending, test);
    FailTells(Select(s.pending, test, true), alive);
    ToldConcat(s.past.settled, Fail(Select(s.pending, test, true), alive));
  }

  lemma MovesKeepsLife(s: State, t: State)
    requires Life(s) && Moves(s, t, [])
    ensures Life(t)
  {
    hide Ledger;
  }

  lemma BeginKeepsLife(s: State, f: Frame, manager: Manager, info: Option<Info>)
    requires Life(s) && f !in s.frames && (info.Some? ==> Sized(info.value))
    ensures Life(Begin(s, f, manager, info))
  {
    hide Sized, Owners, Told;
    var t := Begin(s, f, manager, info);
    assert forall p :: p in s.pending ==> Genuine(s, p);
    assert t.past.accepted + t.past.refused == s.past.accepted + s.past.refused + (if info.None? then [f] else []);
    NoDupConcat(s.past.accepted + s.past.refused, if info.None? then [f] else []);
  }

  lemma RefuseKeepsLife(s: State, f: Frame)
    requires Life(s) && f in s.frames && !s.frames[f].used
    ensures Life(Refuse(s.(frames := s.frames[f := s.frames[f].(used := true)]), f))
  {
    hide Sized, Owners, Told;
    var t := Refuse(s.(frames := s.frames[f := s.frames[f].(used := true)]), f);
    assert forall p :: p in s.pending ==> Genuine(s, p);
    assert t.past.accepted + t.past.refused == s.past.accepted + s.past.refused + [f];
    NoDupConcat(s.past.accepted + s.past.refused, [f]);
  }

  lemma NoDupInsert<T(!new)>(a: seq<T>, x: T, b: seq<T>)
    requires NoDup(a + b) && x !in a + b
    ensures NoDup(a + [x] + b)
    ensures forall y :: y in a + [x] + b <==> y in a + b || y == x
  {
    NoDupConcat(a, b);
    NoDupConcat(a, [x]);
    NoDupConcat(a + [x], b);
  }

  lemma EnqueueKeepsLife(s: State, p: Request)
    requires Life(s) && p.frame in s.frames && !s.frames[p.frame].used && |s.pending| < MAX_PENDING
    requires s.frames[p.frame].info == Some(p.info) && s.frames[p.frame].manager == p.manager
    ensures Life(Enqueue(s.(frames := s.frames[p.frame := s.frames[p.frame].(used := true)]), p))
  {
    hide Sized, Owners, Told;
    var t := Enqueue(s.(frames := s.frames[p.frame := s.frames[p.frame].(used := true)]), p);
    assert forall q :: q in s.pending ==> Genuine(s, q);
    NoDupInsert(s.past.accepted, p.frame, s.past.refused);
    EnqueueLedger(s, p);
  }

  lemma EnqueueLedger(s: State, p: Request)
    requires Ledger(s) == multiset(s.past.accepted)
    ensures Ledger(Enqueue(s, p)) == multiset(Enqueue(s, p).past.accepted)
  {
    OwnersOne(p);
    OwnersConcat(s.pending, [p]);
  }

  lemma CopyKeepsLife(s: State, a: Ask)
    requires Life(s) && a.frame in s.frames
    ensures Life(Copy(s, a).0)
    ensures Copy(s, a).1 == Accepted ==> a.frame !in s.past.accepted
  {
    hide Ledger, Fits, NoDup;
    var data := s.frames[a.frame];
    if !data.used {
      RefuseKeepsLife(s, a.frame);
      if data.info.Some? && |s.pending| < MAX_PENDING {
        EnqueueKeepsLife(s, Request(a.frame, a.buffer, data.info.value, data.manager, a.damage, a.now));
      }
    }
  }

  // ------------------------------------------------------- copies that wait for changes

  /** Generations tell pictures apart: a client's last copy has the generation of the target
      exactly when the target has not changed since. */
  ghost predicate Fresh(s: State) {
    Apart(s.caches, s.last, s.generation, s.past.draws, s.past.seen)
  }

  ghost predicate Apart(caches: map<Key, Cache>, last: map<(Manager, Key), (nat, Rect)>, generation: nat,
      draws: map<Key, nat>, seen: map<(Manager, Key), nat>) {
    && (forall k :: k in caches ==> caches[k].generation <= generation)
    && (forall m :: m in last ==> m in seen && 0 < last[m].0 <= generation && seen[m] <= Count(draws, m.1))
    && (forall m :: m in last && m.1 in caches && caches[m.1].generation != 0 ==>
          (last[m].0 == caches[m.1].generation <==> seen[m] == Count(draws, m.1)))
  }

  /** A target that was never drawn comes out changed when it is. */
  ghost predicate Honest(s: State, key: Key, env: Pass) {
    env.shape.Some? && env.drawn == Some(false) ==>
      !Replaces(s.caches, key, env.shape.value, env.context) && s.caches[key].generation != 0
  }

  ghost predicate Drawn(s: State, key: Key) {
    key in s.caches && s.caches[key].generation != 0
  }

  lemma TargetKeepsFresh(s: State, key: Key, shape: Shape, env: Pass)
    requires Fresh(s)
    ensures Fresh(Target(s, key, shape, env))
  {
  }

  lemma DrawKeepsFresh(s: State, key: Key, damaged: bool)
    requires Fresh(s) && key in s.caches && (!damaged ==> Drawn(s, key))
    ensures Fresh(Draw(s, key, damaged)) && Drawn(Draw(s, key, damaged), key)
  {
  }

  lemma DeliverOneKeepsFresh(s: State, key: Key, p: Request, env: Pass)
    requires Fresh(s) && Drawn(s, key)
    ensures Fresh(DeliverOne(s, key, p, env)) && Drawn(DeliverOne(s, key, p, env), key)
  {
  }

  lemma {:induction false} DeliverKeepsFresh(s: State, key: Key, jobs: seq<Request>, env: Pass)
    requires Fresh(s) && Drawn(s, key)
    ensures Fresh(Deliver(s, key, jobs, env))
    decreases |jobs|
  {
    hide Fresh;
    if jobs != [] {
      DeliverOneKeepsFresh(s, key, jobs[0], env);
      DeliverKeepsFresh(DeliverOne(s, key, jobs[0], env), key, jobs[1..], env);
    }
  }

  /** Whenever a pass decides about a request for changes, it waits if and only if its client
      has a copy of the same region and nothing was drawn on this target since. */
  lemma WaitsIffUnchanged(s: State, key: Key, p: Request)
    requires Fresh(s) && Drawn(s, key)
    ensures var m := (p.manager, key);
      HeldBack(s, key, p) <==>
      p.damage && m in s.last && s.last[m].1 == p.info.region && s.past.seen[m] == Count(s.past.draws, key)
  {
  }

  lemma WorkKeepsFresh(s: State, key: Key, jobs: seq<Request>, shape: Shape, env: Pass)
    requires Fresh(s) && env.shape == Some(shape) && Honest(s, key, env)
    ensures Fresh(Work(s, key, jobs, shape, env))
  {
    hide Apart, Deliver, Draw, Fail;
    if Replaces(s.caches, key, shape, env.context) && !env.created {
      hide Target;
    } else {
      var t := Target(s, key, shape, env);
      TargetKeepsFresh(s, key, shape, env);
      if env.bound && env.drawn.Some? {
        DrawKeepsFresh(t, key, env.drawn.value);
        DeliverKeepsFresh(Draw(t, key, env.drawn.value), key, jobs, env);
      }
    }
  }

  lemma PassKeepsFresh(s: State, key: Key, env: Pass)
    requires Fresh(s) && Honest(s, key, env)
    ensures Fresh(RenderPass(s, key, env))
  {
    if Select(s.pending, Wants(key), true) != [] && env.shape.Some? {
      hide Apart, Work, Fail, Select;
      var shape := env.shape.value;
      var t := Take(s, key, shape, env);
      WorkKeepsFresh(t, key, Jobs(s, key, shape, env), shape, env);
    }
  }

  // -------------------------------------------------------------------- whole runs

  datatype Move =
    | BeginFrame(frame: Frame, manager: Manager, look: Look)
    | CopyFrame(ask: Ask)
    | Tidy(outputs: set<nat>, blocked: bool, alive: Alive, now: nat)
    | Repaint(output: nat, plain: Pass, cursor: Pass)

  /** A new object is new, a request comes from an object that exists. */
  ghost predicate Possible(s: State, m: Move) {
    match m
    case BeginFrame(f, _, _) => f !in s.frames
    case CopyFrame(a) => a.frame in s.frames
    case Tidy(_, _, _, _) => true
    case Repaint(_, _, _) => true
  }

  ghost function Step(s: State, m: Move): State
    requires Possible(s, m)
  {
    match m
    case BeginFrame(f, manager, look) => Begin(s, f, manager, CaptureInfo(look))
    case CopyFrame(a) => Copy(s, a).0
    case Tidy(outputs, blocked, alive, now) => Maintain(s, outputs, blocked, alive, now)
    case Repaint(output, plain, cursor) => Render(s, output, plain, cursor)
  }

  ghost predicate Run(ss: seq<State>, ms: seq<Move>) {
    && |ss| == |ms| + 1
    && ss[0] == INITIAL
    && forall i :: 0 <= i < |ms| ==> Possible(ss[i], ms[i]) && ss[i + 1] == Step(ss[i], ms[i])
  }

  /** The renderer reports changes as they are. */
  ghost predicate HonestMove(s: State, m: Move) {
    m.Repaint? ==>
      && Honest(s, Key(m.output, false), m.plain)
      && Honest(RenderPass(s, Key(m.output, false), m.plain), Key(m.output, true), m.cursor)
  }

  ghost predicate HonestRun(ss: seq<State>, ms: seq<Move>) {
    Run(ss, ms) && forall i :: 0 <= i < |ms| ==> HonestMove(ss[i], ms[i])
  }

  lemma RenderMoves(s: State, output: nat, plain: Pass, cursor: Pass)
    ensures Moves(s, Render(s, output, plain, cursor), [])
  {
    hide Moves, RenderPass;
    var t := RenderPass(s, Key(output, false), plain);
    PassMoves(s, Key(output, false), plain);
    PassMoves(t, Key(output, true), cursor);
    var none: seq<Request> := [];
    assert none + none == none;
    MovesTrans(s, t, RenderPass(t, Key(output, true), cursor), none, none);
  }

  lemma MaintainKeepsFresh(s: State, outputs: set<nat>, blocked: bool, alive: Alive, now: nat)
    requires Fresh(s)
    ensures Fresh(Maintain(s, outputs, blocked, alive, now))
  {
  }

  lemma RequestsKeepFresh(s: State, f: Frame, manager: Manager, info: Option<Info>, a: Ask)
    ensures Fresh(s) ==> Fresh(Begin(s, f, manager, info))
    ensures a.frame in s.frames && Fresh(s) ==> Fresh(Copy(s, a).0)
    ensures Begin(s, f, manager, info).past.settled == s.past.settled
    ensures a.frame in s.frames ==> Copy(s, a).0.past.settled == s.past.settled
  {
    hide Fits, Apart;
  }

  ghost predicate Grows(s: State, t: State) {
    s.past.settled <= t.past.settled && s.past.accepted <= t.past.accepted
  }

  lemma GrowsSelf(s: State)
    ensures Grows(s, s)
  {
  }

  lemma GrowsTrans(s: State, t: State, u: State)
    requires Grows(s, t) && Grows(t, u)
    ensures Grows(s, u)
  {
  }

  lemma RequestsKeep(s: State, m: Move)
    requires Life(s) && Possible(s, m) && (m.BeginFrame? || m.CopyFrame?)
    ensures Life(Step(s, m)) && Grows(s, Step(s, m))
    ensures Fresh(s) ==> Fresh(Step(s, m))
  {
    hide Life, Apart, Fits, CaptureInfo;
    if m.BeginFrame? {
      var info := CaptureInfo(m.look);
      CaptureInfoSized(m.look);
      BeginKeepsLife(s, m.frame, m.manager, info);
      RequestsKeepFresh(s, m.frame, m.manager, info, Ask(m.frame, 0, None, false, false, 0));
    } else {
      CopyKeepsLife(s, m.ask);
      RequestsKeepFresh(s, m.ask.frame, 0, None, m.ask);
    }
  }

  /** Every step keeps the ledger, whatever the renderer answers; and while it is honest,
      generations keep their meaning. */
  lemma StepKeeps(s: State, m: Move)
    requires Life(s) && Possible(s, m)
    ensures Life(Step(s, m)) && Grows(s, Step(s, m))
    ensures Fresh(s) && HonestMove(s, m) ==> Fresh(Step(s, m))
  {
    hide Life, Fresh, Maintain, RenderPass, Honest;
    match m
    case BeginFrame(_, _, _) => RequestsKeep(s, m);
    case CopyFrame(_) => RequestsKeep(s, m);
    case Tidy(outputs, blocked, alive, now) =>
      MaintainMoves(s, outputs, blocked, alive, now);
      MovesKeepsLife(s, Maintain(s, outputs, blocked, alive, now));
      if Fresh(s) { MaintainKeepsFresh(s, outputs, blocked, alive, now); }
    case Repaint(output, plain, cursor) =>
      RenderMoves(s, output, plain, cursor);
      MovesKeepsLife(s, Render(s, output, plain, cursor));
      if Fresh(s) && HonestMove(s, m) {
        PassKeepsFresh(s, Key(output, false), plain);
        PassKeepsFresh(RenderPass(s, Key(output, false), plain), Key(output, true), cursor);
      }
  }

  lemma {:induction false} RunKeeps(ss: seq<State>, ms: seq<Move>, i: nat)
    requires Run(ss, ms) && i < |ss|
    ensures Life(ss[i])
  {
    if i == 0 {
      assert ss[0] == INITIAL;
    } else {
      RunKeeps(ss, ms, i - 1);
      hide Life, Fresh, Step, Possible, HonestMove;
      StepKeeps(ss[i - 1], ms[i - 1]);
    }
  }

  lemma {:induction false} HonestRunKeeps(ss: seq<State>, ms: seq<Move>, i: nat)
    requires HonestRun(ss, ms) && i < |ss|
    ensures Fresh(ss[i])
  {
    hide Life, Fresh, Step, Possible, HonestMove;
    if i == 0 {
      FreshAtStart();
    } else {
      HonestRunKeeps(ss, ms, i - 1);
      RunKeeps(ss, ms, i - 1);
      StepKeeps(ss[i - 1], ms[i - 1]);
    }
  }

  lemma FreshAtStart()
    ensures Fresh(INITIAL)
  {
  }

  lemma {:induction false} RunGrows(ss: seq<State>, ms: seq<Move>, i: nat, j: nat)
    requires Run(ss, ms) && i <= j < |ss|
    ensures Grows(ss[i], ss[j])
    decreases j
  {
    hide Life, Fresh, Step, Possible, Grows, HonestMove;
    GrowsSelf(ss[i]);
    if i < j {
      RunGrows(ss, ms, i, j - 1);
      RunKeeps(ss, ms, j - 1);
      var s, m := ss[j - 1], ms[j - 1];
      StepKeeps(s, m);
      GrowsTrans(ss[i], s, Step(s, m));
    }
  }

  lemma {:induction false} NoDupOnce<T(!new)>(s: seq<T>, x: T)
    requires NoDup(s)
    ensures multiset(s)[x] == if x in s then 1 else 0
  {
    if s != [] {
      NoDupOnce(s[1..], x);
      assert s == [s[0]] + s[1..];
    }
  }

  /** Never more than the bound are waiting; an accepted request is waiting or has been told
      its outcome, one of the two and once; nobody else is told anything; and what was told
      stands. */
  lemma LifeCycle(ss: seq<State>, ms: seq<Move>, i: nat, j: nat, f: Frame)
    requires Run(ss, ms) && i <= j < |ss|
    ensures |ss[i].pending| <= MAX_PENDING
    ensures Owners(ss[i].pending)[f] + Told(ss[i].past.settled)[f] == if f in ss[i].past.accepted then 1 else 0
    ensures f in ss[i].past.accepted ==> f in ss[i].frames && ss[i].frames[f].used && f !in ss[i].past.refused
    ensures ss[i].past.settled <= ss[j].past.settled
  {
    RunKeeps(ss, ms, i);
    RunGrows(ss, ms, i, j);
    var s := ss[i];
    NoDupConcat(s.past.accepted, s.past.refused);
    NoDupOnce(s.past.accepted, f);
    assert Ledger(s)[f] == multiset(s.past.accepted)[f];
    hide Run, NoDup;
  }

  /** When the copy of a waiting request is made, its buffer is looked at again; if it passes,
      every byte written lies in the client's pool. */
  lemma CopiesStayInside(ss: seq<State>, ms: seq<Move>, i: nat, p: Request, data: Buffer, pool: int, row: int,
      column: int)
    requires Run(ss, ms) && i < |ss| && p in ss[i].pending
    requires ValidShm(data, pool, Size(p.info.region.w, p.info.region.h))
    requires 0 <= row < p.info.region.h && 0 <= column < p.info.region.w * 4
    ensures 0 <= data.offset + row * (p.info.region.w * 4) + column < pool
    ensures 0 < p.info.region.w * p.info.region.h * 4 <= 4 * MAX_PIXELS
  {
    RunKeeps(ss, ms, i);
    assert Genuine(ss[i], p);
    hide Life, Run;
    PixelsBounded(p.info.shape.mode, p.info.region);
    BytesInside(data, pool, Size(p.info.region.w, p.info.region.h), row, column);
  }

  /** A frame object is accepted for one copy only. */
  lemma AcceptedOnce(ss: seq<State>, ms: seq<Move>, i: nat, j: nat)
    requires Run(ss, ms) && i < j < |ms| && ms[i].CopyFrame? && ms[j].CopyFrame?
    requires Possible(ss[i], ms[i]) && Possible(ss[j], ms[j])
    requires Copy(ss[i], ms[i].ask).1 == Accepted && ms[j].ask.frame == ms[i].ask.frame
    ensures Copy(ss[j], ms[j].ask).1 == AlreadyUsed
  {
    var f := ms[i].ask.frame;
    assert f in ss[i + 1].past.accepted by { hide Fits; }
    RunGrows(ss, ms, i + 1, j);
    LifeCycle(ss, ms, j, j, f);
  }

  /** Once the session is locked or blank, tidying up leaves no request behind. */
  lemma BlockedEmpties(s: State, outputs: set<nat>, alive: Alive, now: nat)
    ensures Maintain(s, outputs, true, alive, now).pending == []
    ensures Maintain(s, outputs, true, alive, now).caches == map[]
  {
    NoneLeft(s.pending, Expired(outputs, true, alive, now));
  }

  lemma {:induction false} NoneLeft(ps: seq<Request>, test: Test)
    requires forall p :: p in ps ==> Meets(p, test)
    ensures Select(ps, test, false) == []
  {
    if ps != [] { NoneLeft(ps[1..], test); }
  }

  lemma {:induction false} SelectAppend(ps: seq<Request>, test: Test, want: bool, p: Request)
    ensures Select(ps + [p], test, want) == Select(ps, test, want) + if Meets(p, test) == want then [p] else []
  {
    if ps == [] {
      assert ps + [p] == [p];
      assert [p][1..] == [];
    } else {
      assert (ps + [p])[1..] == ps[1..] + [p];
      SelectAppend(ps[1..], test, want, p);
    }
  }

  lemma {:induction false} FailAppend(ps: seq<Request>, alive: Alive, p: Request)
    ensures Fail(ps + [p], alive) == Fail(ps, alive) + [FailOne(p, alive)]
  {
    if ps == [] {
      assert ps + [p] == [p];
      assert [p][1..] == [];
    } else {
      assert (ps + [p])[1..] == ps[1..] + [p];
      FailAppend(ps[1..], alive, p);
    }
  }

  lemma {:induction false} DeliverAppend(s: State, key: Key, jobs: seq<Request>, p: Request, env: Pass)
    requires key in s.caches
    ensures key in Deliver(s, key, jobs, env).caches
    ensures Deliver(s, key, jobs + [p], env) == DeliverOne(Deliver(s, key, jobs, env), key, p, env)
    decreases |jobs|
  {
    if jobs == [] {
      assert jobs + [p] == [p];
      assert [p][1..] == [];
    } else {
      assert (jobs + [p])[1..] == jobs[1..] + [p];
      DeliverAppend(DeliverOne(s, key, jobs[0], env), key, jobs[1..], p, env);
    }
  }

  lemma SelectNext(ps: seq<Request>, i: nat, test: Test, alive: Alive)
    requires i < |ps|
    ensures Select(ps[..i + 1], test, true) == Select(ps[..i], test, true) + if Meets(ps[i], test) then [ps[i]] else []
    ensures Select(ps[..i + 1], test, false) == Select(ps[..i], test, false) +
      if Meets(ps[i], test) then [] else [ps[i]]
    ensures Fail(Select(ps[..i + 1], test, true), alive) ==
      Fail(Select(ps[..i], test, true), alive) + if Meets(ps[i], test) then [FailOne(ps[i], alive)] else []
  {
    hide Meets, FailOne;
    assert ps[..i + 1] == ps[..i] + [ps[i]];
    SelectAppend(ps[..i], test, true, ps[i]);
    SelectAppend(ps[..i], test, false, ps[i]);
    FailAppend(Select(ps[..i], test, true), alive, ps[i]);
    var was := Select(ps[..i], test, true);
    assert was + [] == was && Fail(was, alive) + [] == Fail(was, alive);
  }

  /** After tidying up exactly those wait that can still be served: frame and buffer alive, the
      output there, and asked for changes or not long ago. */
  lemma TidyExact(s: State, outputs: set<nat>, blocked: bool, alive: Alive, now: nat, p: Request)
    ensures p in Maintain(s, outputs, blocked, alive, now).pending <==>
      && p in s.pending && !blocked
      && p.frame in alive.frames && p.buffer in alive.buffers && p.info.output in outputs
      && (p.damage || now <= p.since + PATIENCE)
  {
  }

  /** The request behind an outcome told in a pass, and what the pass must have done for it. */
  ghost predicate Explains(p: Request, f: Frame, o: Outcome, key: Key, env: Pass) {
    && p.frame == f && p.info.output == key.output && p.info.cursor == key.cursor
    && (o.Dropped? ==> f !in env.alive.frames)
    && (o.Failed? ==> f in env.alive.frames)
    && (o.Ready? ==>
          && f in env.alive.frames && p.buffer in env.alive.buffers
          && env.shape == Some(p.info.shape) && env.bound && env.drawn.Some? && f in env.copied)
  }

  lemma {:induction false} FailExplained(ps: seq<Request>, alive: Alive, e: (Frame, Outcome))
    requires e in Fail(ps, alive)
    ensures exists p :: p in ps && e == FailOne(p, alive)
  {
    if e != FailOne(ps[0], alive) { FailExplained(ps[1..], alive, e); }
  }

  lemma {:induction false} DeliverExplained(s: State, key: Key, jobs: seq<Request>, env: Pass, e: (Frame, Outcome))
    requires key in s.caches && e in Deliver(s, key, jobs, env).past.settled && e !in s.past.settled
    ensures exists p :: p in jobs && (e == FailOne(p, env.alive) || (e == (p.frame, Ready) && p.frame in env.copied))
    decreases |jobs|
  {
    var t := DeliverOne(s, key, jobs[0], env);
    if e !in t.past.settled { DeliverExplained(t, key, jobs[1..], env, e); }
  }

  lemma WorkExplained(s: State, key: Key, jobs: seq<Request>, shape: Shape, env: Pass, e: (Frame, Outcome))
    requires e in Work(s, key, jobs, shape, env).past.settled && e !in s.past.settled
    ensures exists p ::
      p in jobs && (e == FailOne(p, env.alive) ||
        (e == (p.frame, Ready) && p.frame in env.copied && env.bound && env.drawn.Some?))
  {
    if e in Fail(jobs, env.alive) {
      FailExplained(jobs, env.alive, e);
    } else {
      hide Fail, Replaces;
      DeliverExplained(Draw(Target(s, key, shape, env), key, env.drawn.value), key, jobs, env, e);
    }
  }

  /** Whatever a pass tells a client is about a request that was waiting for this output: ready
      only when its frame and buffer live, the output is as it was advertised, and the target
      was drawn and copied; failed only to a frame that is still there. */
  lemma OnlyExplained(s: State, key: Key, env: Pass, e: (Frame, Outcome))
    requires e in RenderPass(s, key, env).past.settled && e !in s.past.settled
    ensures exists p :: p in s.pending && Explains(p, e.0, e.1, key, env)
  {
    var shape := env.shape.value;
    var bad := Select(Select(s.pending, Wants(key), true), Unusable(shape, env.alive), true);
    if e in Fail(bad, env.alive) {
      FailExplained(bad, env.alive, e);
      var p :| p in bad && e == FailOne(p, env.alive);
      assert p in s.pending && Explains(p, e.0, e.1, key, env);
    } else {
      JobExplained(s, key, shape, env, e);
    }
  }

  lemma JobExplained(s: State, key: Key, shape: Shape, env: Pass, e: (Frame, Outcome))
    requires env.shape == Some(shape) && e !in Take(s, key, shape, env).past.settled
    requires e in Work(Take(s, key, shape, env), key, Jobs(s, key, shape, env), shape, env).past.settled
    ensures exists p :: p in s.pending && Explains(p, e.0, e.1, key, env)
  {
    var jobs := Jobs(s, key, shape, env);
    WorkExplained(Take(s, key, shape, env), key, jobs, shape, env, e);
    hide Work, Fail, Take;
    var p :|
      p in jobs && (e == FailOne(p, env.alive) ||
        (e == (p.frame, Ready) && p.frame in env.copied && env.bound && env.drawn.Some?));
    assert p in s.pending && Explains(p, e.0, e.1, key, env);
  }

  // ------------------------------------------------------------- no request waits for ever

  /** Nothing is queued for a frame that was accepted before. */
  lemma NoneNew(s: State, m: Move, p: Request)
    requires Life(s) && Possible(s, m) && p.frame in s.past.accepted && p in Step(s, m).pending
    ensures p in s.pending
  {
    hide CaptureInfo, Fits, Maintain, RenderPass, Ledger;
    match m
    case BeginFrame(_, _, _) =>
    case CopyFrame(_) =>
    case Tidy(outputs, blocked, alive, now) => MaintainMoves(s, outputs, blocked, alive, now);
    case Repaint(output, plain, cursor) => RenderMoves(s, output, plain, cursor);
  }

  lemma {:induction false} WasPending(ss: seq<State>, ms: seq<Move>, i: nat, j: nat, p: Request)
    requires Run(ss, ms) && i <= j < |ss| && p.frame in ss[i].past.accepted && p in ss[j].pending
    ensures p in ss[i].pending
    decreases j
  {
    hide Life, Step, Possible, Grows;
    if i < j {
      RunKeeps(ss, ms, j - 1);
      RunGrows(ss, ms, i, j - 1);
      StillAccepted(ss[i], ss[j - 1], p.frame);
      NoneNew(ss[j - 1], ms[j - 1], p);
      WasPending(ss, ms, i, j - 1, p);
    }
  }

  lemma StillAccepted(s: State, t: State, f: Frame)
    requires Grows(s, t) && f in s.past.accepted
    ensures f in t.past.accepted
  {
  }

  lemma {:induction false} NotAnOwner(ps: seq<Request>, f: Frame)
    requires forall p :: p in ps ==> p.frame != f
    ensures Owners(ps)[f] == 0
  {
    if ps != [] { NotAnOwner(ps[1..], f); }
  }

  /** The request a copy puts in the queue is the only one its frame ever has there. */
  lemma OnlyRequest(ss: seq<State>, ms: seq<Move>, i: nat, j: nat, p: Request)
    requires Run(ss, ms) && i < j < |ss| && ms[i].CopyFrame? && Possible(ss[i], ms[i])
    requires Copy(ss[i], ms[i].ask).1 == Accepted && p in ss[j].pending && p.frame == ms[i].ask.frame
    ensures var a := ms[i].ask;
      p == Request(a.frame, a.buffer, ss[i].frames[a.frame].info.value, ss[i].frames[a.frame].manager, a.damage, a.now)
  {
    RunKeeps(ss, ms, i);
    assert ss[i + 1] == Copy(ss[i], ms[i].ask).0;
    hide Fits, Ledger, NoDup, Run;
    assert p.frame in ss[i + 1].past.accepted;
    WasPending(ss, ms, i + 1, j, p);
    assert p in ss[i].pending ==> Genuine(ss[i], p);
  }

  /** A tidy-up ends a request whose client or output is gone, every request once the session is
      locked or blank, and a request for a plain copy after five seconds: from then on it is not
      waiting and has been told its one outcome. */
  lemma EndsInTime(ss: seq<State>, ms: seq<Move>, i: nat, j: nat, k: nat)
    requires Run(ss, ms) && i < j < |ms| && j < k < |ss|
    requires ms[i].CopyFrame? && Possible(ss[i], ms[i]) && Copy(ss[i], ms[i].ask).1 == Accepted && ms[j].Tidy?
    requires var (a, t) := (ms[i].ask, ms[j]);
      || t.blocked || a.frame !in t.alive.frames || a.buffer !in t.alive.buffers
      || ss[i].frames[a.frame].info.value.output !in t.outputs
      || (!a.damage && t.now > a.now + PATIENCE)
    ensures Owners(ss[k].pending)[ms[i].ask.frame] == 0 && Told(ss[k].past.settled)[ms[i].ask.frame] == 1
  {
    var f, t := ms[i].ask.frame, ms[j];
    assert f in ss[i + 1].past.accepted by { hide Fits; }
    RunGrows(ss, ms, i + 1, j + 1);
    RunGrows(ss, ms, i + 1, k);
    assert ss[j + 1] == Maintain(ss[j], t.outputs, t.blocked, t.alive, t.now);
    forall p | p in ss[k].pending ensures p.frame != f {
      if p.frame == f {
        OnlyRequest(ss, ms, i, k, p);
        WasPending(ss, ms, j + 1, k, p);
        TidyExact(ss[j], t.outputs, t.blocked, t.alive, t.now, p);
        assert false;
      }
    }
    NotAnOwner(ss[k].pending, f);
    LifeCycle(ss, ms, k, k, f);
  }
}
