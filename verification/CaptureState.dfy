/** The compositor's capture state as it is kept: one object, changed by requests, by the
    regular tidying up and by every repaint (mindwm/src/capture.rs). What clients are told is
    written to `past`. */
module CaptureState {
  import opened Common
  import opened CaptureRegion
  import opened CaptureQueue

  class Captures {
    var frames: map<Frame, FrameData>
    var pending: seq<Request>
    var caches: map<Key, Cache>
    var last: map<(Manager, Key), (nat, Rect)>
    var generation: nat
    ghost var past: History

    ghost function View(): State
      reads this
    {
      State(frames, pending, caches, last, generation, past)
    }

    constructor ()
      ensures View() == INITIAL
    {
      frames := map[];
      pending := [];
      caches := map[];
      last := map[];
      generation := 0;
      past := INITIAL.past;
    }

    /** A client made a frame object; it is told at once when there is nothing to capture. */
    method CreateFrame(f: Frame, manager: Manager, look: Look)
      modifies this
      ensures View() == Begin(old(View()), f, manager, CaptureInfo(look))
    {
      var info := CaptureInfo(look);
      frames := frames[f := FrameData(info, manager, info.None?)];
      if info.None? {
        past := past.(refused := past.refused + [f]);
      }
    }

    method RequestCopy(a: Ask) returns (reply: Reply)
      requires a.frame in frames
      modifies this
      ensures (View(), reply) == Copy(old(View()), a)
    {
      var data := frames[a.frame];
      if data.used {
        return AlreadyUsed;
      }
      frames := frames[a.frame := data.(used := true)];
      if data.info.None? {
        past := past.(refused := past.refused + [a.frame]);
        return FailedAtOnce;
      }
      var info := data.info.value;
      if !Fits(a, info.region) {
        past := past.(refused := past.refused + [a.frame]);
        return InvalidBuffer;
      }
      if a.blocked || |pending| >= MAX_PENDING {
        past := past.(refused := past.refused + [a.frame]);
        return FailedAtOnce;
      }
      pending := pending + [Request(a.frame, a.buffer, info, data.manager, a.damage, a.now)];
      past := past.(accepted := past.accepted + [a.frame]);
      return Accepted;
    }

    /** `Pending::fail`. */
    method FailRequest(p: Request, alive: Alive)
      modifies this`past
      ensures past == Tell(old(past), [FailOne(p, alive)])
    {
      past := past.(settled := past.settled + [FailOne(p, alive)]);
    }

    /** Fail the requests that meet the test and keep the others. */
    method Sift(ps: seq<Request>, test: Test, alive: Alive) returns (keep: seq<Request>)
      modifies this`past
      ensures keep == Select(ps, test, false)
      ensures past == Tell(old(past), Fail(Select(ps, test, true), alive))
    {
      keep := [];
      assert ps[..0] == [];
      assert Select([], test, true) == [] && Select([], test, false) == [] && Fail([], alive) == [];
      TellTwice(past, [], []);
      hide Select, Meets, Fail, FailOne, Tell;
      for i := 0 to |ps|
        invariant keep == Select(ps[..i], test, false)
        invariant past == Tell(old(past), Fail(Select(ps[..i], test, true), alive))
      {
        SelectNext(ps, i, test, alive);
        TellTwice(old(past), Fail(Select(ps[..i], test, true), alive), [FailOne(ps[i], alive)]);
        if Meets(ps[i], test) {
          FailRequest(ps[i], alive);
        } else {
          keep := keep + [ps[i]];
        }
      }
      assert ps[..|ps|] == ps;
    }

    method FailAll(ps: seq<Request>, alive: Alive)
      modifies this`past
      ensures past == Tell(old(past), Fail(ps, alive))
    {
      for i := 0 to |ps|
        invariant past == Tell(old(past), Fail(ps[..i], alive))
      {
        FailAppend(ps[..i], alive, ps[i]);
        assert ps[..i + 1] == ps[..i] + [ps[i]];
        FailRequest(ps[i], alive);
      }
      assert ps[..|ps|] == ps;
    }

    method Partition(ps: seq<Request>, test: Test) returns (yes: seq<Request>, no: seq<Request>)
      ensures yes == Select(ps, test, true) && no == Select(ps, test, false)
    {
      yes, no := [], [];
      assert ps[..0] == [];
      assert Select([], test, true) == [] && Select([], test, false) == [];
      hide Select, Meets;
      for i := 0 to |ps|
        invariant yes == Select(ps[..i], test, true) && no == Select(ps[..i], test, false)
      {
        SelectNext(ps, i, test, Alive({}, {}));
        if Meets(ps[i], test) {
          yes := yes + [ps[i]];
        } else {
          no := no + [ps[i]];
        }
      }
      assert ps[..|ps|] == ps;
    }

    method Tidy(outputs: set<nat>, blocked: bool, alive: Alive, now: nat)
      modifies this
      ensures View() == Maintain(old(View()), outputs, blocked, alive, now)
    {
      pending := Sift(pending, Expired(outputs, blocked, alive, now), alive);
      caches := map k | k in caches && !blocked && k.output in outputs && now - caches[k].lastUsed < CACHE_LIFE ::
        caches[k];
    }

    method DeliverRequest(key: Key, p: Request, env: Pass)
      requires key in caches
      modifies this
      ensures View() == DeliverOne(old(View()), key, p, env)
    {
      var m := (p.manager, key);
      var picture := (caches[key].generation, p.info.region);
      if p.damage && m in last && last[m] == picture {
        pending := pending + [p];
        return;
      }
      if p.frame in env.copied {
        last := last[m := picture];
        past := past.(settled := past.settled + [(p.frame, Ready)], seen := past.seen[m := Count(past.draws, key)]);
      } else {
        FailRequest(p, env.alive);
      }
    }

    method DeliverAll(key: Key, jobs: seq<Request>, env: Pass)
      requires key in caches
      modifies this
      ensures View() == Deliver(old(View()), key, jobs, env)
    {
      for i := 0 to |jobs|
        invariant key in caches
        invariant View() == Deliver(old(View()), key, jobs[..i], env)
      {
        DeliverAppend(old(View()), key, jobs[..i], jobs[i], env);
        assert jobs[..i + 1] == jobs[..i] + [jobs[i]];
        DeliverRequest(key, jobs[i], env);
      }
      assert jobs[..|jobs|] == jobs;
    }

    /** Make or find the target, draw it, and answer the jobs. */
    method DrawAndDeliver(key: Key, jobs: seq<Request>, shape: Shape, env: Pass)
      modifies this
      ensures View() == Work(old(View()), key, jobs, shape, env)
    {
      hide Deliver, Fail;
      if Replaces(caches, key, shape, env.context) {
        if !env.created {
          FailAll(jobs, env.alive);
          return;
        }
        caches := caches[key := Cache(env.context, shape, 0, env.now)];
      }
      caches := caches[key := caches[key].(lastUsed := env.now)];
      assert View() == Target(old(View()), key, shape, env);
      if !env.bound || env.drawn.None? {
        FailAll(jobs, env.alive);
        return;
      }
      if env.drawn.value {
        generation := generation + 1;
        caches := caches[key := caches[key].(generation := generation)];
        past := past.(draws := past.draws[key := Count(past.draws, key) + 1]);
      }
      DeliverAll(key, jobs, env);
    }

    method RenderFor(key: Key, env: Pass)
      modifies this
      ensures View() == RenderPass(old(View()), key, env)
    {
      var mine, other := Partition(pending, Wants(key));
      if mine == [] || env.shape.None? {
        return;
      }
      pending := other;
      var jobs := Sift(mine, Unusable(env.shape.value, env.alive), env.alive);
      if jobs == [] {
        return;
      }
      DrawAndDeliver(key, jobs, env.shape.value, env);
    }

    method RenderOutput(output: nat, plain: Pass, cursor: Pass)
      modifies this
      ensures View() == Render(old(View()), output, plain, cursor)
    {
      RenderFor(Key(output, false), plain);
      RenderFor(Key(output, true), cursor);
    }
  }
}
