/** What becomes of each capture request, said request by request (mindwm/src/capture.rs): who is
    told what in a repaint, a tidy-up or at once, and when a request waits for changes. */
module CaptureAnswers {
  import opened Common
  import opened CaptureRegion
  import opened CaptureQueue

  // -------------------------------------------------------- what a client is told, exactly

  /** Everything a request for this key needs to get its picture. */
  predicate CanServe(s: State, key: Key, p: Request, env: Pass) {
    && env.shape == Some(p.info.shape) && p.frame in env.alive.frames && p.buffer in env.alive.buffers
    && (!Replaces(s.caches, key, p.info.shape, env.context) || env.created)
    && env.bound && env.drawn.Some?
  }

  /** The state in which the `i`th job of a pass is decided about: those before it are done. */
  function Moment(s: State, key: Key, env: Pass, i: nat): State
    requires env.shape.Some? && env.drawn.Some? && i <= |Jobs(s, key, env.shape.value, env)|
  {
    var t := Target(Take(s, key, env.shape.value, env), key, env.shape.value, env);
    Deliver(Draw(t, key, env.drawn.value), key, Jobs(s, key, env.shape.value, env)[..i], env)
  }

  /** One decision: kept for changes, told ready with the copy recorded, or failed. */
  lemma DeliverOneMeans(s: State, key: Key, p: Request, env: Pass)
    requires key in s.caches
    ensures var t := DeliverOne(s, key, p, env);
      var m := (p.manager, key);
      if HeldBack(s, key, p) then t == s.(pending := s.pending + [p])
      else if p.frame in env.copied then
        && t.pending == s.pending && t.past.settled == s.past.settled + [(p.frame, Ready)]
        && m in t.last && t.last[m] == (s.caches[key].generation, p.info.region)
        && m in t.past.seen && t.past.seen[m] == Count(s.past.draws, key)
      else
        && t.pending == s.pending && t.last == s.last
        && t.past.settled == s.past.settled + [(p.frame, if p.frame in env.alive.frames then Failed else Dropped)]
  {
  }

  lemma {:induction false} DeliverKeepsOld(s: State, key: Key, jobs: seq<Request>, env: Pass)
    requires key in s.caches
    ensures var t := Deliver(s, key, jobs, env);
      s.past.settled <= t.past.settled && s.pending <= t.pending && t.caches == s.caches
    decreases |jobs|
  {
    if jobs != [] { DeliverKeepsOld(DeliverOne(s, key, jobs[0], env), key, jobs[1..], env); }
  }

  lemma {:induction false} DeliverSplits(s: State, key: Key, a: seq<Request>, b: seq<Request>, env: Pass)
    requires key in s.caches
    ensures key in Deliver(s, key, a, env).caches
    ensures Deliver(s, key, a + b, env) == Deliver(Deliver(s, key, a, env), key, b, env)
    decreases |a|
  {
    if a == [] {
      assert a + b == b;
    } else {
      assert (a + b)[1..] == a[1..] + b;
      DeliverSplits(DeliverOne(s, key, a[0], env), key, a[1..], b, env);
    }
  }

  /** What is decided about a job stands whatever comes after it. */
  lemma FirstDecided(u: State, key: Key, p: Request, rest: seq<Request>, env: Pass)
    requires key in u.caches
    ensures var t := Deliver(DeliverOne(u, key, p, env), key, rest, env);
      if HeldBack(u, key, p) then p in t.pending
      else (p.frame, if p.frame in env.copied then Ready else FailOne(p, env.alive).1) in t.past.settled
  {
    var v := DeliverOne(u, key, p, env);
    DeliverOneMeans(u, key, p, env);
    DeliverKeepsOld(v, key, rest, env);
    hide DeliverOne, HeldBack, Deliver;
    assert v.past.settled != [] ==> v.past.settled[|v.past.settled| - 1] in v.past.settled;
    assert v.pending != [] ==> v.pending[|v.pending| - 1] in v.pending;
  }

  lemma DeliverDecides(s: State, key: Key, jobs: seq<Request>, i: nat, env: Pass)
    requires key in s.caches && i < |jobs|
    ensures var (u, p, t) := (Deliver(s, key, jobs[..i], env), jobs[i], Deliver(s, key, jobs, env));
      && key in u.caches
      && if HeldBack(u, key, p) then p in t.pending
         else (p.frame, if p.frame in env.copied then Ready else FailOne(p, env.alive).1) in t.past.settled
  {
    var u, p, rest := Deliver(s, key, jobs[..i], env), jobs[i], jobs[i..];
    assert jobs == jobs[..i] + rest && rest[0] == p;
    DeliverSplits(s, key, jobs[..i], rest, env);
    assert Deliver(u, key, rest, env) == Deliver(DeliverOne(u, key, p, env), key, rest[1..], env);
    hide Deliver, DeliverOne, HeldBack, FailOne;
    FirstDecided(u, key, p, rest[1..], env);
  }

  lemma {:induction false} FailTellsEach(ps: seq<Request>, alive: Alive, p: Request)
    requires p in ps
    ensures FailOne(p, alive) in Fail(ps, alive)
  {
    if p != ps[0] { FailTellsEach(ps[1..], alive, p); }
  }

  /** What a pass for its output makes of a waiting request. Without a mode nothing happens. If it
      cannot be served it is failed (or dropped, its frame gone). Otherwise it is decided about
      at its turn: kept if it waits for changes and its client has this picture, else told ready
      if and only if its pixels were copied, and failed if they were not. */
  lemma PassDecides(s: State, key: Key, env: Pass, p: Request)
    requires p in s.pending && Meets(p, Wants(key)) && env.shape.Some?
    ensures var t := RenderPass(s, key, env);
      if !CanServe(s, key, p, env) then FailOne(p, env.alive) in t.past.settled
      else exists i: nat ::
        && i < |Jobs(s, key, env.shape.value, env)| && Jobs(s, key, env.shape.value, env)[i] == p
        && key in Moment(s, key, env, i).caches
        && if HeldBack(Moment(s, key, env, i), key, p) then p in t.pending
           else (p.frame, if p.frame in env.copied then Ready else Failed) in t.past.settled
  {
    var shape := env.shape.value;
    var jobs, u := Jobs(s, key, shape, env), Take(s, key, shape, env);
    if Meets(p, Unusable(shape, env.alive)) {
      UnusableFails(s, key, shape, env, p);
    } else {
      assert p in jobs;
      var i: nat :| i < |jobs| && jobs[i] == p;
      assert u.caches == s.caches;
      WorkDecides(u, key, jobs, shape, env, i);
      hide Work, Jobs, Take, Select;
    }
  }

  lemma UnusableFails(s: State, key: Key, shape: Shape, env: Pass, p: Request)
    requires p in s.pending && Meets(p, Wants(key)) && env.shape == Some(shape) && Meets(p, Unusable(shape, env.alive))
    ensures FailOne(p, env.alive) in RenderPass(s, key, env).past.settled
  {
    var mine := Select(s.pending, Wants(key), true);
    var bad := Select(mine, Unusable(shape, env.alive), true);
    assert p in mine && p in bad;
    FailTellsEach(bad, env.alive, p);
    var u, jobs := Take(s, key, shape, env), Jobs(s, key, shape, env);
    assert FailOne(p, env.alive) in u.past.settled;
    WorkMoves(u, key, jobs, shape, env);
    hide Work, Jobs, Take, Select, FailOne;
  }

  lemma WorkDecides(u: State, key: Key, jobs: seq<Request>, shape: Shape, env: Pass, i: nat)
    requires i < |jobs|
    ensures var (p, t) := (jobs[i], Work(u, key, jobs, shape, env));
      if (Replaces(u.caches, key, shape, env.context) && !env.created) || !env.bound || env.drawn.None? then
        FailOne(p, env.alive) in t.past.settled
      else
        var d := Draw(Target(u, key, shape, env), key, env.drawn.value);
        var v := Deliver(d, key, jobs[..i], env);
        && key in v.caches
        && if HeldBack(v, key, p) then p in t.pending
           else (p.frame, if p.frame in env.copied then Ready else FailOne(p, env.alive).1) in t.past.settled
  {
    FailTellsEach(jobs, env.alive, jobs[i]);
    if !((Replaces(u.caches, key, shape, env.context) && !env.created) || !env.bound || env.drawn.None?) {
      DeliverDecides(Draw(Target(u, key, shape, env), key, env.drawn.value), key, jobs, i, env);
    }
    hide Fail, FailOne, HeldBack, Deliver, Draw;
  }

  lemma {:induction false} ToldAtLeast(done: seq<(Frame, Outcome)>, e: (Frame, Outcome))
    requires e in done
    ensures Told(done)[e.0] >= 1
  {
    if e != done[0] { ToldAtLeast(done[1..], e); }
  }

  lemma {:induction false} ToldTwice(done: seq<(Frame, Outcome)>, f: Frame, a: Outcome, b: Outcome)
    requires (f, a) in done && (f, b) in done && a != b
    ensures Told(done)[f] >= 2
  {
    if done[0] == (f, a) {
      assert (f, b) in done[1..];
      ToldAtLeast(done[1..], (f, b));
    } else if done[0] == (f, b) {
      assert (f, a) in done[1..];
      ToldAtLeast(done[1..], (f, a));
    } else {
      ToldTwice(done[1..], f, a, b);
    }
  }

  lemma {:induction false} OwnerCounts(ps: seq<Request>, p: Request)
    requires p in ps
    ensures Owners(ps)[p.frame] >= 1
  {
    if p != ps[0] { OwnerCounts(ps[1..], p); }
  }

  /** A frame is waiting or has one outcome. */
  lemma OneOutcome(t: State, f: Frame, o: Outcome)
    requires Life(t) && (f, o) in t.past.settled
    ensures forall a :: (f, a) in t.past.settled ==> a == o
    ensures forall p :: p in t.pending ==> p.frame != f
  {
    NoDupConcat(t.past.accepted, t.past.refused);
    NoDupOnce(t.past.accepted, f);
    assert Ledger(t)[f] == multiset(t.past.accepted)[f];
    ToldAtLeast(t.past.settled, (f, o));
    forall a | (f, a) in t.past.settled ensures a == o { if a != o { ToldTwice(t.past.settled, f, a, o); } }
    forall p | p in t.pending ensures p.frame != f { if p.frame == f { OwnerCounts(t.pending, p); } }
  }

  /** The answer to a waiting request, exactly: it is told ready if and only if it could be served,
      is not held back and its pixels were copied; failed, its frame there, if and only if one of
      those is not so; and a request for a plain copy never stays. */
  lemma PassAnswers(s: State, key: Key, env: Pass, p: Request)
    requires Life(s) && p in s.pending && Meets(p, Wants(key)) && env.shape.Some?
    ensures var t := RenderPass(s, key, env);
      && (!CanServe(s, key, p, env) ==>
            && p !in t.pending && (p.frame, Ready) !in t.past.settled && FailOne(p, env.alive) in t.past.settled
            && ((p.frame, Failed) in t.past.settled <==> p.frame in env.alive.frames))
      && (CanServe(s, key, p, env) && p !in t.pending ==>
            && ((p.frame, Ready) in t.past.settled <==> p.frame in env.copied)
            && ((p.frame, Failed) in t.past.settled <==> p.frame !in env.copied))
      && (CanServe(s, key, p, env) && !p.damage ==> p !in t.pending)
  {
    var t := RenderPass(s, key, env);
    PassDecides(s, key, env, p);
    PassMoves(s, key, env);
    MovesKeepsLife(s, t);
    hide Life, RenderPass, Moves, CanServe, Moment, Jobs;
    if FailOne(p, env.alive) in t.past.settled { OneOutcome(t, p.frame, FailOne(p, env.alive).1); }
    if (p.frame, Ready) in t.past.settled { OneOutcome(t, p.frame, Ready); }
    if (p.frame, Failed) in t.past.settled { OneOutcome(t, p.frame, Failed); }
  }

  /** The state and the answers a request is decided with in a repaint: the turn for its cursor
      setting, the plain one first. */
  function TurnOf(s: State, output: nat, plain: Pass, cursor: Pass, p: Request): (State, Pass) {
    if p.info.cursor then (RenderPass(s, Key(output, false), plain), cursor) else (s, plain)
  }

  lemma RenderAnswers(s: State, output: nat, plain: Pass, cursor: Pass, p: Request)
    requires Life(s) && p in s.pending && p.info.output == output && !p.damage
    requires TurnOf(s, output, plain, cursor, p).1.shape.Some?
    ensures var ((u, env), key) := (TurnOf(s, output, plain, cursor, p), Key(output, p.info.cursor));
      var t := Render(s, output, plain, cursor);
      && p !in t.pending
      && ((p.frame, Ready) in t.past.settled <==> CanServe(u, key, p, env) && p.frame in env.copied)
  {
    var a, b := Key(output, false), Key(output, true);
    var t := RenderPass(s, a, plain);
    hide Life, RenderPass, CanServe, Moves;
    PassMoves(s, a, plain);
    MovesKeepsLife(s, t);
    if p.info.cursor {
      PassLeavesOthers(s, a, plain, p);
      PassAnswers(t, b, cursor, p);
    } else {
      PassMoves(t, b, cursor);
      MovesKeepsLife(t, RenderPass(t, b, cursor));
      PassAnswers(s, a, plain, p);
      LaterSame(t, RenderPass(t, b, cursor), p);
    }
  }

  /** Over every run: a repaint of its output decides about a waiting request in the turn for its
      cursor setting. A plain copy is told ready if and only if it could be served in that turn
      and its pixels were copied, and waits no longer. */
  lemma RepaintAnswers(ss: seq<State>, ms: seq<Move>, i: nat, p: Request)
    requires Run(ss, ms) && i < |ms| && ms[i].Repaint?
    requires p in ss[i].pending && p.info.output == ms[i].output && !p.damage
    requires TurnOf(ss[i], ms[i].output, ms[i].plain, ms[i].cursor, p).1.shape.Some?
    ensures var (u, env) := TurnOf(ss[i], ms[i].output, ms[i].plain, ms[i].cursor, p);
      && p !in ss[i + 1].pending
      && ((p.frame, Ready) in ss[i + 1].past.settled <==>
            CanServe(u, Key(p.info.output, p.info.cursor), p, env) && p.frame in env.copied)
  {
    RunKeeps(ss, ms, i);
    assert ss[i + 1] == Render(ss[i], ms[i].output, ms[i].plain, ms[i].cursor) by { hide Render; }
    hide Run, Life, Render, CanServe, TurnOf;
    RenderAnswers(ss[i], ms[i].output, ms[i].plain, ms[i].cursor, p);
  }

  /** What was told in one turn stands after the other. */
  lemma LaterSame(t: State, u: State, p: Request)
    requires Life(t) && Life(u) && Moves(t, u, []) && p !in t.pending
    requires exists o :: (p.frame, o) in t.past.settled
    ensures p !in u.pending && ((p.frame, Ready) in u.past.settled <==> (p.frame, Ready) in t.past.settled)
  {
    forall o | (p.frame, o) in t.past.settled ensures forall a :: (p.frame, a) in u.past.settled ==> a == o {
      OneOutcome(u, p.frame, o);
    }
    hide Life;
  }

  /** With an honest renderer the moment of decision is one at which generations mean what they
      should, so `WaitsIffUnchanged` says when a request is held back. */
  lemma MomentFresh(s: State, key: Key, env: Pass, i: nat)
    requires Fresh(s) && Honest(s, key, env) && env.shape.Some? && env.drawn.Some?
    requires i <= |Jobs(s, key, env.shape.value, env)|
    ensures Fresh(Moment(s, key, env, i)) && Drawn(Moment(s, key, env, i), key)
  {
    var shape := env.shape.value;
    var u := Take(s, key, shape, env);
    assert Fresh(u) by { hide Apart, Select, Fail; }
    assert u.caches == s.caches by { hide Select, Fail; }
    var v := Target(u, key, shape, env);
    TargetKeepsFresh(u, key, shape, env);
    DrawKeepsFresh(v, key, env.drawn.value);
    var d := Draw(v, key, env.drawn.value);
    hide Fresh, Draw, Take, Jobs;
    DeliverKeepsFresh(d, key, Jobs(s, key, shape, env)[..i], env);
    DeliverKeepsOld(d, key, Jobs(s, key, shape, env)[..i], env);
  }

  /** Requests for other outputs are left alone. */
  lemma PassLeavesOthers(s: State, key: Key, env: Pass, p: Request)
    requires p in s.pending && !Meets(p, Wants(key))
    ensures p in RenderPass(s, key, env).pending
  {
    if Select(s.pending, Wants(key), true) != [] && env.shape.Some? {
      var shape := env.shape.value;
      var u, jobs := Take(s, key, shape, env), Jobs(s, key, shape, env);
      assert p in u.pending;
      hide Jobs, Take, Select, Meets, Deliver, Fail;
      WorkKeepsPending(u, key, jobs, shape, env);
    }
  }

  lemma WorkKeepsPending(u: State, key: Key, jobs: seq<Request>, shape: Shape, env: Pass)
    ensures u.pending <= Work(u, key, jobs, shape, env).pending
  {
    hide Deliver, Fail;
    if !(Replaces(u.caches, key, shape, env.context) && !env.created) && env.bound && env.drawn.Some? {
      DeliverKeepsOld(Draw(Target(u, key, shape, env), key, env.drawn.value), key, jobs, env);
    }
  }

  /** What a tidy-up tells: each request it ends fails, or is dropped with its frame; and nobody
      else is told anything. */
  lemma TidyTells(s: State, outputs: set<nat>, blocked: bool, alive: Alive, now: nat, p: Request, e: (Frame, Outcome))
    requires p in s.pending
    ensures var t := Maintain(s, outputs, blocked, alive, now);
      && (p in t.pending || (p.frame, if p.frame in alive.frames then Failed else Dropped) in t.past.settled)
      && (e in t.past.settled && e !in s.past.settled ==> exists q :: q in s.pending && e == FailOne(q, alive))
  {
    var ended := Select(s.pending, Expired(outputs, blocked, alive, now), true);
    if p in ended { FailTellsEach(ended, alive, p); }
    if e in Fail(ended, alive) { FailExplained(ended, alive, e); }
    hide Fail, Select, Meets;
  }

  /** A new frame: unused with what it captures recorded, or used and refused at once. */
  lemma BeginMeans(s: State, f: Frame, manager: Manager, look: Look)
    ensures var t := Begin(s, f, manager, CaptureInfo(look));
      && t.frames == s.frames[f := FrameData(CaptureInfo(look), manager, CaptureInfo(look).None?)]
      && t.pending == s.pending && t.past.accepted == s.past.accepted
      && t.past.refused == s.past.refused + if CaptureInfo(look).None? then [f] else []
  {
    hide CaptureInfo;
  }

  /** There is something to capture exactly when the session shows, the output is there and lit,
      and the region is not empty; and then it is the output's region as it is now. */
  lemma CaptureInfoIff(look: Look)
    ensures CaptureInfo(look).Some? <==>
      && !look.locked && !look.blank && !look.kiosk
      && look.output.Some? && look.output.value.mapped && look.output.value.mode.Some?
      && var o := look.output.value; Region(o.mode.value, o.scale, o.transform, look.requested).Some?
    ensures CaptureInfo(look).Some? ==>
      var (o, info) := (look.output.value, CaptureInfo(look).value);
      && Some(info.region) == Region(o.mode.value, o.scale, o.transform, look.requested)
      && info.output == o.id && info.cursor == look.cursor && info.shape == Shape(o.mode.value, o.scale, o.transform)
  {
    hide Region;
  }

  /** A copy is accepted exactly when the frame is unused, the buffer fits, the session shows and
      there is room; then it waits, last in the queue, with what the frame was made for. Whatever
      the reply, the frame is used up. */
  lemma CopyMeans(s: State, a: Ask)
    requires Life(s) && a.frame in s.frames
    ensures var (data, (t, reply)) := (s.frames[a.frame], Copy(s, a));
      && (reply == AlreadyUsed <==> data.used) && (data.used ==> t == s)
      && (reply == Accepted <==>
            !data.used && Fits(a, data.info.value.region) && !a.blocked && |s.pending| < MAX_PENDING)
      && (reply == InvalidBuffer <==> !data.used && !Fits(a, data.info.value.region))
      && t.frames[a.frame] == data.(used := true)
      && (reply == Accepted ==>
            && t.past.accepted == s.past.accepted + [a.frame]
            && t.pending == s.pending + [Request(a.frame, a.buffer, data.info.value, data.manager, a.damage, a.now)])
      && (reply != Accepted ==> t.pending == s.pending && t.past.accepted == s.past.accepted)
  {
    hide Fits, Ledger, NoDup;
  }

  // ------------------------------------------------------------------------ the targets

  /** A target is kept while output, renderer and shape are the same, and made anew otherwise. */
  lemma TargetMeans(s: State, key: Key, shape: Shape, env: Pass)
    ensures var t := Target(s, key, shape, env);
      && t == s.(caches := t.caches) && t.caches.Keys == s.caches.Keys + {key}
      && (forall k :: k in s.caches && k != key ==> t.caches[k] == s.caches[k])
      && t.caches[key] == Cache(env.context, shape, t.caches[key].generation, env.now)
      && t.caches[key].generation ==
           if key in s.caches && s.caches[key].shape == shape && s.caches[key].context == env.context
           then s.caches[key].generation else 0
  {
  }

  /** Drawing with changes gives the target a generation nobody had, and counts. */
  lemma DrawMeans(s: State, key: Key, damaged: bool)
    requires Fresh(s) && key in s.caches
    ensures var t := Draw(s, key, damaged);
      && (forall k :: Count(t.past.draws, k) == Count(s.past.draws, k) + if damaged && k == key then 1 else 0)
      && (damaged ==> forall k :: k in s.caches ==> t.caches[key].generation > s.caches[k].generation)
      && (damaged ==> forall m :: m in s.last ==> t.caches[key].generation > s.last[m].0)
      && (!damaged ==> t == s)
  {
  }

  /** Tidying up keeps the targets of outputs that are there, used within two seconds, while the
      session shows. */
  lemma TidyTargets(s: State, outputs: set<nat>, blocked: bool, alive: Alive, now: nat, k: Key)
    ensures var t := Maintain(s, outputs, blocked, alive, now);
      && (k in t.caches <==>
            k in s.caches && !blocked && k.output in outputs && now < s.caches[k].lastUsed + CACHE_LIFE)
      && (k in t.caches ==> t.caches[k] == s.caches[k])
  {
  }
}
