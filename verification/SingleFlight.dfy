/** Helper commands the shell runs for its windows (`run_helper` in mindshell/src/app.rs).
    Several windows may want the same read-only command; they share one run, and its result
    is good for another second. A call is two steps around the wait for the command; calls
    interleave between them. */
module SingleFlight {
  import opened Common

  const CACHE_LIFE := 1000

  type Id = nat
  type Argv = seq<string>

  /** What a command printed, and whether it succeeded. */
  datatype Value = Value(output: string, ok: bool)
  datatype Result = Ok(value: Value) | Err(message: string)

  // ------------------------------------------------------------------- the commands

  predicate Sudo(argv: Argv) {
    |argv| >= 2 && argv[0] == "sudo" && argv[1] == "-n"
  }

  function Command(argv: Argv): Argv {
    if Sudo(argv) then argv[2..] else argv
  }

  predicate Verb(cmd: Argv, program: string, verbs: set<string>) {
    |cmd| >= 2 && cmd[0] == program && cmd[1] in verbs
  }

  predicate Program(cmd: Argv, program: string) {
    |cmd| >= 1 && cmd[0] == program
  }

  predicate Allowed(argv: Argv) {
    var (sudo, cmd) := (Sudo(argv), Command(argv));
    || Verb(cmd, "mindos-perf", {"status", "get", "modes", "set", "config", "apply"})
    || Verb(cmd, "mindos-boot", {"list"})
    || (!sudo && (
            || Program(cmd, "mindos-dlss")
            || cmd == ["mindos-games", "scan"]
            || (|cmd| == 3 && Verb(cmd, "mindos-games", {"launch"}))
            || (|cmd| >= 2 && cmd[0] == "pacman" && "-Q" <= cmd[1])
            || Program(cmd, "checkupdates")
            || Program(cmd, "nvidia-smi")
            || cmd == ["pkexec", "mindos-pkg", "install", "--repo-only", "mindos-gaming"]))
  }

  predicate Shared(argv: Argv) {
    var cmd := Command(argv);
    && !Sudo(argv)
    && (|| Verb(cmd, "mindos-perf", {"status", "get", "modes"})
        || cmd == ["mindos-games", "scan"]
        || Verb(cmd, "mindos-boot", {"list"})
        || Program(cmd, "pacman")
        || Program(cmd, "checkupdates")
        || Program(cmd, "nvidia-smi"))
  }

  predicate ChangesPerf(argv: Argv) {
    Verb(Command(argv), "mindos-perf", {"set", "config", "apply"})
  }

  /** What is shared only reads. */
  lemma SharedOnlyReads(argv: Argv)
    ensures !(Shared(argv) && ChangesPerf(argv))
  {
  }

  /** As root only performance settings are touched and boot entries listed; otherwise only
      the few programs named, and what is shared is allowed once a flag is given to pacman. */
  lemma AllowedIsNarrow(argv: Argv)
    ensures Allowed(argv) && Sudo(argv) ==> |argv| >= 4 && (argv[2], argv[3]) in ROOT_COMMANDS
    ensures Allowed(argv) && !Sudo(argv) ==>
      argv != [] && argv[0] in {"mindos-perf", "mindos-boot", "mindos-dlss", "mindos-games", "pacman", "checkupdates",
        "nvidia-smi", "pkexec"}
    ensures Allowed(argv) && !Sudo(argv) && argv[0] == "pacman" ==> |argv| >= 2 && "-Q" <= argv[1]
    ensures Shared(argv) && !(argv != [] && argv[0] == "pacman") ==> Allowed(argv)
  {
  }

  /** Exactly these are run, and exactly these are shared. */
  lemma AllowedIff(argv: Argv)
    ensures Sudo(argv) ==> (Allowed(argv) <==> |argv| >= 4 && (argv[2], argv[3]) in ROOT_COMMANDS) && !Shared(argv)
    ensures !Sudo(argv) ==>
      (Allowed(argv) <==>
         || (|argv| >= 2 && (argv[0], argv[1]) in ROOT_COMMANDS)
         || (|argv| >= 1 && argv[0] in {"mindos-dlss", "checkupdates", "nvidia-smi"})
         || (|argv| >= 2 && argv[0] == "pacman" && "-Q" <= argv[1])
         || argv == ["mindos-games", "scan"] || (|argv| == 3 && argv[..2] == ["mindos-games", "launch"])
         || argv == ["pkexec", "mindos-pkg", "install", "--repo-only", "mindos-gaming"])
    ensures !Sudo(argv) ==>
      (Shared(argv) <==>
         || (|argv| >= 2 && (argv[0], argv[1]) in ROOT_COMMANDS && argv[1] in {"status", "get", "modes", "list"})
         || (|argv| >= 1 && argv[0] in {"pacman", "checkupdates", "nvidia-smi"})
         || argv == ["mindos-games", "scan"])
  {
    assert |argv| == 3 ==> argv[..2] == [argv[0], argv[1]];
  }

  const ROOT_COMMANDS: set<(string, string)> := {
    ("mindos-perf", "status"), ("mindos-perf", "get"), ("mindos-perf", "modes"), ("mindos-perf", "set"),
    ("mindos-perf", "config"), ("mindos-perf", "apply"), ("mindos-boot", "list")}

  // ---------------------------------------------------------------------- the steps

  /** An answer and the run it came from; one from the cache or a refusal has none. */
  datatype Answer = Answer(call: Id, run: Option<Id>, result: Result)

  /** A run that is over. */
  datatype Finished = Finished(argv: Argv, result: Result, at: nat)

  /** Beside the two maps of the source: the calls a command is running for, the one each
      shared command runs for, which run each waiting call joined, and what has been answered
      and run. */
  datatype State = State(
    cache: map<Argv, (nat, Value)>,
    inflight: map<Argv, seq<Id>>,
    running: map<Id, Argv>,
    leader: map<Argv, Id>,
    joined: map<Id, Id>,
    answers: seq<Answer>,
    finished: seq<Finished>)

  const INITIAL := State(map[], map[], map[], map[], map[], [], [])

  predicate Hit(s: State, argv: Argv, now: nat) {
    argv in s.cache && now - s.cache[argv].0 < CACHE_LIFE
  }

  function Tell(s: State, answer: Answer): State {
    s.(answers := s.answers + [answer])
  }

  function Join(s: State, id: Id, argv: Argv): State
    requires argv in s.inflight
  {
    s.(inflight := s.inflight[argv := s.inflight[argv] + [id]],
       joined := if argv in s.leader then s.joined[id := s.leader[argv]] else s.joined)
  }

  function Lead(s: State, id: Id, argv: Argv): State {
    s.(inflight := s.inflight[argv := []], leader := s.leader[argv := id], running := s.running[id := argv])
  }

  /** A call, up to the wait. */
  function Call(s: State, id: Id, argv: Argv, now: nat): State {
    if !Allowed(argv) then Tell(s, Answer(id, None, Err("not allowed")))
    else if !Shared(argv) then s.(running := s.running[id := argv])
    else if Hit(s, argv, now) then Tell(s, Answer(id, None, Ok(s.cache[argv].1)))
    else if argv in s.inflight then Join(s, id, argv)
    else Lead(s, id, argv)
  }

  /** The same result for every waiting call. */
  function Served(ws: seq<Id>, r: Id, result: Result): seq<Answer> {
    if ws == [] then [] else [Answer(ws[0], Some(r), result)] + Served(ws[1..], r, result)
  }

  function Serve(s: State, argv: Argv, r: Id, result: Result): State {
    if argv !in s.inflight then s
    else
      var ws := s.inflight[argv];
      s.(inflight := s.inflight - {argv}, leader := s.leader - {argv}, joined := s.joined - Elements(ws),
         answers := s.answers + Served(ws, r, result))
  }

  function Store(cache: map<Argv, (nat, Value)>, argv: Argv, result: Result, now: nat): map<Argv, (nat, Value)> {
    var filled := if Shared(argv) && result.Ok? then cache[argv := (now, result.value)] else cache;
    if ChangesPerf(argv) && result.Ok? && result.value.ok then map[] else filled
  }

  /** The command of call `r` is over. */
  function Finish(s: State, r: Id, result: Result, now: nat): State
    requires r in s.running
  {
    var argv := s.running[r];
    var s := s.(running := s.running - {r}, cache := Store(s.cache, argv, result, now),
      finished := s.finished + [Finished(argv, result, now)]);
    var s := if Shared(argv) then Serve(s, argv, r, result) else s;
    Tell(s, Answer(r, Some(r), result))
  }

  // -------------------------------------------------------------- as the source keeps it

  class Helpers {
    var cache: map<Argv, (nat, Value)>
    var inflight: map<Argv, seq<Id>>
    ghost var running: map<Id, Argv>
    ghost var leader: map<Argv, Id>
    ghost var joined: map<Id, Id>
    ghost var answers: seq<Answer>
    ghost var finished: seq<Finished>

    ghost function View(): State
      reads this
    {
      State(cache, inflight, running, leader, joined, answers, finished)
    }

    constructor ()
      ensures View() == INITIAL
    {
      cache, inflight := map[], map[];
      running, leader, joined, answers, finished := map[], map[], map[], [], [];
    }

    /** Returns the answer if there is one at once, and whether to run the command. */
    method RunHelper(id: Id, argv: Argv, now: nat) returns (at_once: Option<Result>, run: bool)
      modifies this
      ensures View() == Call(old(View()), id, argv, now)
      ensures at_once.Some? ==> answers == old(answers) + [Answer(id, None, at_once.value)]
      ensures run <==> Allowed(argv) && (Shared(argv) ==> !Hit(old(View()), argv, now) && argv !in old(inflight))
    {
      hide Allowed, Shared;
      if !Allowed(argv) {
        answers := answers + [Answer(id, None, Err("not allowed"))];
        return Some(Err("not allowed")), false;
      }
      if Shared(argv) {
        if argv in cache && now - cache[argv].0 < CACHE_LIFE {
          answers := answers + [Answer(id, None, Ok(cache[argv].1))];
          return Some(Ok(cache[argv].1)), false;
        }
        if argv in inflight {
          inflight := inflight[argv := inflight[argv] + [id]];
          joined := if argv in leader then joined[id := leader[argv]] else joined;
          return None, false;
        }
        inflight := inflight[argv := []];
        leader := leader[argv := id];
      }
      running := running[id := argv];
      return None, true;
    }

    method ServeAll(ws: seq<Id>, r: Id, result: Result)
      modifies this`answers
      ensures answers == old(answers) + Served(ws, r, result)
    {
      for i := 0 to |ws|
        invariant answers == old(answers) + Served(ws[..i], r, result)
      {
        ServedAppend(ws[..i], ws[i], r, result);
        assert ws[..i + 1] == ws[..i] + [ws[i]];
        answers := answers + [Answer(ws[i], Some(r), result)];
      }
      assert ws[..|ws|] == ws;
    }

    method HelperDone(r: Id, argv: Argv, result: Result, now: nat)
      requires r in running && running[r] == argv
      modifies this
      ensures View() == Finish(old(View()), r, result, now)
    {
      hide Shared, ChangesPerf, Served;
      running := running - {r};
      finished := finished + [Finished(argv, result, now)];
      if Shared(argv) {
        if result.Ok? {
          cache := cache[argv := (now, result.value)];
        }
        if argv in inflight {
          var waiting := inflight[argv];
          inflight := inflight - {argv};
          leader, joined := leader - {argv}, joined - Elements(waiting);
          ServeAll(waiting, r, result);
        }
      }
      if ChangesPerf(argv) && result.Ok? && result.value.ok {
        cache := map[];
      }
      answers := answers + [Answer(r, Some(r), result)];
    }
  }

  lemma {:induction false} ServedAppend(ws: seq<Id>, w: Id, r: Id, result: Result)
    ensures Served(ws + [w], r, result) == Served(ws, r, result) + [Answer(w, Some(r), result)]
  {
    if ws == [] {
      assert ws + [w] == [w];
      assert [w][1..] == [];
    } else {
      assert (ws + [w])[1..] == ws[1..] + [w];
      ServedAppend(ws[1..], w, r, result);
    }
  }

  // -------------------------------------------------------------------- the invariant

  function Called(answers: seq<Answer>): (ids: seq<Id>)
    ensures |ids| == |answers|
    ensures forall i :: 0 <= i < |ids| ==> ids[i] == answers[i].call
  {
    seq(|answers|, i requires 0 <= i < |answers| => answers[i].call)
  }

  /** Every shared command in flight runs for exactly one call, its leader. */
  ghost predicate Led(s: State) {
    && s.leader.Keys == s.inflight.Keys
    && (forall a :: a in s.leader ==> Shared(a) && s.leader[a] in s.running && s.running[s.leader[a]] == a)
    && (forall r :: r in s.running && Shared(s.running[r]) ==> s.running[r] in s.leader && s.leader[s.running[r]] == r)
  }

  /** The waiting lists hold those that joined the leader, each once. */
  ghost predicate Listed(s: State) {
    && (forall w :: w in s.joined ==> s.joined[w] in s.running && Shared(s.running[s.joined[w]]))
    && (forall a :: a in s.inflight ==> NoDup(s.inflight[a]))
    && (forall a, w :: a in s.inflight && a in s.leader ==>
         (w in s.inflight[a] <==> w in s.joined && s.joined[w] == s.leader[a]))
  }

  /** A call is running, waiting or answered: one of them, and answered once. */
  ghost predicate Apart(s: State) {
    && s.running.Keys !! s.joined.Keys
    && NoDup(Called(s.answers))
    && (forall id :: id in Called(s.answers) ==> id !in s.running && id !in s.joined)
  }

  /** What is cached was the result of a run. */
  ghost predicate Cached(s: State) {
    forall a :: a in s.cache ==> Shared(a) && Finished(a, Ok(s.cache[a].1), s.cache[a].0) in s.finished
  }

  ghost predicate Inv(s: State) {
    Led(s) && Listed(s) && Apart(s) && Cached(s)
  }

  ghost predicate Known(s: State, id: Id) {
    id in s.running || id in s.joined || id in Called(s.answers)
  }

  lemma CalledNext(answers: seq<Answer>, more: seq<Answer>)
    ensures Called(answers + more) == Called(answers) + Called(more)
  {
  }

  lemma TellKeeps(s: State, answer: Answer)
    requires Inv(s) && !Known(s, answer.call)
    ensures Inv(Tell(s, answer))
  {
    hide Shared;
    CalledNext(s.answers, [answer]);
    assert Called([answer]) == [answer.call];
    NoDupConcat(Called(s.answers), [answer.call]);
    hide Called, NoDup;
  }

  lemma JoinListed(s: State, id: Id, argv: Argv)
    requires Led(s) && Listed(s) && !Known(s, id) && argv in s.inflight
    ensures Listed(Join(s, id, argv))
  {
    hide Shared, Called;
    NoDupConcat(s.inflight[argv], [id]);
    hide NoDup;
  }

  lemma JoinKeeps(s: State, id: Id, argv: Argv)
    requires Inv(s) && !Known(s, id) && argv in s.inflight
    ensures Inv(Join(s, id, argv))
  {
    JoinListed(s, id, argv);
    JoinLed(s, id, argv);
    hide Shared, Called, Listed, NoDup, Led;
  }

  lemma JoinLed(s: State, id: Id, argv: Argv)
    requires Led(s) && argv in s.inflight
    ensures Led(Join(s, id, argv))
  {
  }

  lemma LeadListed(s: State, id: Id, argv: Argv)
    requires Led(s) && Listed(s) && !Known(s, id) && argv !in s.inflight
    ensures Listed(Lead(s, id, argv))
  {
    hide Shared, Called;
  }

  lemma LeadKeeps(s: State, id: Id, argv: Argv)
    requires Inv(s) && !Known(s, id) && argv !in s.inflight && Shared(argv)
    ensures Inv(Lead(s, id, argv))
  {
    LeadListed(s, id, argv);
    LeadLed(s, id, argv);
    hide Shared, Called, Listed, NoDup, Led;
  }

  lemma LeadLed(s: State, id: Id, argv: Argv)
    requires Led(s) && id !in s.running && argv !in s.inflight && Shared(argv)
    ensures Led(Lead(s, id, argv))
  {
  }

  lemma RunKeeps(s: State, id: Id, argv: Argv)
    requires Inv(s) && !Known(s, id) && !Shared(argv)
    ensures Inv(s.(running := s.running[id := argv]))
  {
    hide Shared, Called;
  }

  lemma CallKeeps(s: State, id: Id, argv: Argv, now: nat)
    requires Inv(s) && !Known(s, id)
    ensures Inv(Call(s, id, argv, now))
  {
    hide Inv, Known, Shared, Allowed, Join, Lead, Tell;
    if !Allowed(argv) {
      TellKeeps(s, Answer(id, None, Err("not allowed")));
    } else if !Shared(argv) {
      RunKeeps(s, id, argv);
    } else if Hit(s, argv, now) {
      TellKeeps(s, Answer(id, None, Ok(s.cache[argv].1)));
    } else if argv in s.inflight {
      JoinKeeps(s, id, argv);
    } else {
      LeadKeeps(s, id, argv);
    }
  }

  lemma {:induction false} ServedCalls(ws: seq<Id>, r: Id, result: Result)
    ensures Called(Served(ws, r, result)) == ws
    ensures forall w :: w in ws <==> Answer(w, Some(r), result) in Served(ws, r, result)
  {
    if ws != [] { ServedCalls(ws[1..], r, result); }
  }

  /** The state with the run gone and nobody told yet. */
  function Ended(s: State, r: Id, result: Result, now: nat): State
    requires r in s.running
  {
    s.(running := s.running - {r}, cache := Store(s.cache, s.running[r], result, now),
      finished := s.finished + [Finished(s.running[r], result, now)])
  }

  lemma EndedCached(s: State, r: Id, result: Result, now: nat)
    requires Cached(s) && r in s.running
    ensures Cached(Ended(s, r, result, now))
  {
  }

  lemma ServeLed(s: State, r: Id, result: Result, now: nat)
    requires Led(s) && r in s.running && Shared(s.running[r])
    ensures Led(Serve(Ended(s, r, result, now), s.running[r], r, result))
  {
  }

  lemma ServeListed(s: State, r: Id, result: Result, now: nat)
    requires Led(s) && Listed(s) && r in s.running && Shared(s.running[r])
    ensures Listed(Serve(Ended(s, r, result, now), s.running[r], r, result))
  {
    hide Shared, Served, Store, NoDup;
    var a := s.running[r];
    var t := Serve(Ended(s, r, result, now), a, r, result);
    assert a in s.inflight && s.leader[a] == r;
    forall w | w in t.joined ensures t.joined[w] in t.running && Shared(t.running[t.joined[w]]) {
      assert w in s.joined && w !in s.inflight[a];
      assert s.joined[w] != r;
    }
    forall b, w | b in t.inflight && b in t.leader
      ensures w in t.inflight[b] <==> w in t.joined && t.joined[w] == t.leader[b] {
      assert b != a && s.leader[b] != r;
      assert w in s.inflight[b] <==> w in s.joined && s.joined[w] == s.leader[b];
      assert w in s.inflight[a] ==> s.joined[w] == r;
    }
  }

  /** The waiting calls are answered behind everybody who was before. */
  lemma ServeAnswers(s: State, r: Id, result: Result, now: nat)
    requires Led(s) && Listed(s) && Apart(s) && r in s.running && Shared(s.running[r])
    ensures s.running[r] in s.inflight
    ensures var ws := s.inflight[s.running[r]];
      && (forall w :: w in ws ==> w in s.joined && w != r)
      && Called(Serve(Ended(s, r, result, now), s.running[r], r, result).answers) == Called(s.answers) + ws
      && NoDup(Called(s.answers) + ws)
  {
    hide Shared, Served, Store, Called, NoDup;
    var ws := s.inflight[s.running[r]];
    assert s.leader[s.running[r]] == r && NoDup(ws);
    assert forall w :: w in ws ==> w in s.joined && w != r;
    hide Led, Listed;
    ServedCalls(ws, r, result);
    CalledNext(s.answers, Served(ws, r, result));
    NoDupConcat(Called(s.answers), ws);
  }

  lemma ServeApart(s: State, r: Id, result: Result, now: nat)
    requires Led(s) && Listed(s) && Apart(s) && r in s.running && Shared(s.running[r])
    ensures var t := Serve(Ended(s, r, result, now), s.running[r], r, result);
      Apart(t) && !Known(t, r)
  {
    ServeAnswers(s, r, result, now);
    hide Shared, Served, Store, Called, NoDup, Led, Listed;
  }

  lemma QuietKeeps(s: State, r: Id, result: Result, now: nat)
    requires Inv(s) && r in s.running && !Shared(s.running[r])
    ensures Inv(Ended(s, r, result, now)) && !Known(Ended(s, r, result, now), r)
  {
    EndedCached(s, r, result, now);
    QuietLed(s, r, result, now);
    hide Shared, Store, Called, NoDup, Cached, Led, Listed;
  }

  lemma QuietLed(s: State, r: Id, result: Result, now: nat)
    requires Led(s) && Listed(s) && r in s.running && !Shared(s.running[r])
    ensures Led(Ended(s, r, result, now)) && Listed(Ended(s, r, result, now))
  {
    hide Shared, Store, NoDup;
  }

  lemma FinishKeeps(s: State, r: Id, result: Result, now: nat)
    requires Inv(s) && r in s.running
    ensures Inv(Finish(s, r, result, now))
  {
    var a := s.running[r];
    var t := Ended(s, r, result, now);
    if Shared(a) {
      EndedCached(s, r, result, now);
      ServeLed(s, r, result, now);
      ServeListed(s, r, result, now);
      ServeApart(s, r, result, now);
      hide Led, Listed, Apart, Shared, Store;
      t := Serve(t, a, r, result);
      assert Cached(t);
    } else {
      hide Inv;
      QuietKeeps(s, r, result, now);
    }
    hide Inv, Serve, Ended, Shared, Known, Tell, Store;
    TellKeeps(t, Answer(r, Some(r), result));
  }

  // -------------------------------------------------------------------- whole runs

  datatype Move = MakeCall(id: Id, argv: Argv, now: nat) | EndRun(run: Id, result: Result, now: nat)

  ghost predicate Possible(s: State, m: Move) {
    match m
    case MakeCall(id, _, _) => !Known(s, id)
    case EndRun(r, _, _) => r in s.running
  }

  ghost function Step(s: State, m: Move): State
    requires Possible(s, m)
  {
    match m
    case MakeCall(id, argv, now) => Call(s, id, argv, now)
    case EndRun(r, result, now) => Finish(s, r, result, now)
  }

  ghost predicate Run(ss: seq<State>, ms: seq<Move>) {
    && |ss| == |ms| + 1
    && ss[0] == INITIAL
    && forall i :: 0 <= i < |ms| ==> Possible(ss[i], ms[i]) && ss[i + 1] == Step(ss[i], ms[i])
  }

  lemma {:induction false} InvAlways(ss: seq<State>, ms: seq<Move>, i: nat)
    requires Run(ss, ms) && i < |ss|
    ensures Inv(ss[i])
  {
    if i > 0 {
      InvAlways(ss, ms, i - 1);
      hide Inv, Call, Finish, Known;
      match ms[i - 1]
      case MakeCall(id, argv, now) => CallKeeps(ss[i - 1], id, argv, now);
      case EndRun(r, result, now) => FinishKeeps(ss[i - 1], r, result, now);
    }
  }

  /** At no moment do two runs of one shared command exist. */
  lemma OneInFlight(ss: seq<State>, ms: seq<Move>, i: nat, r1: Id, r2: Id)
    requires Run(ss, ms) && i < |ss| && r1 in ss[i].running && r2 in ss[i].running
    requires ss[i].running[r1] == ss[i].running[r2] && Shared(ss[i].running[r1])
    ensures r1 == r2
  {
    InvAlways(ss, ms, i);
    hide Run, Shared, Listed, Apart, Cached;
  }

  /** Each call is in one place, and is answered at most once: no channel is sent to twice. */
  lemma AnsweredOnce(ss: seq<State>, ms: seq<Move>, i: nat, j: nat, k: nat)
    requires Run(ss, ms) && i < |ss| && j < k < |ss[i].answers|
    ensures ss[i].answers[j].call != ss[i].answers[k].call
    ensures ss[i].answers[j].call !in ss[i].running && ss[i].answers[j].call !in ss[i].joined
  {
    InvAlways(ss, ms, i);
    assert Called(ss[i].answers)[j] in Called(ss[i].answers);
  }

  /** While a call waits, the run it joined goes on, and the call stays on its list. */
  lemma NeverStranded(ss: seq<State>, ms: seq<Move>, i: nat, w: Id)
    requires Run(ss, ms) && i < |ss| && w in ss[i].joined
    ensures ss[i].joined[w] in ss[i].running
    ensures var a := ss[i].running[ss[i].joined[w]]; a in ss[i].inflight && w in ss[i].inflight[a]
  {
    InvAlways(ss, ms, i);
    hide Run, Shared, Apart, Cached;
  }

  lemma JoinedStays(s: State, m: Move, w: Id)
    requires Inv(s) && Possible(s, m) && w in s.joined && !(m.EndRun? && m.run == s.joined[w])
    ensures w in Step(s, m).joined && Step(s, m).joined[w] == s.joined[w]
  {
    hide Shared, Allowed, Apart, Cached, Served, Store, Called, NoDup;
  }

  /** When the run a call joined is over, the call gets its result. */
  lemma ServedAtEnd(s: State, r: Id, result: Result, now: nat, w: Id)
    requires Inv(s) && r in s.running && w in s.joined && s.joined[w] == r
    ensures Answer(w, Some(r), result) in Finish(s, r, result, now).answers
  {
    var a := s.running[r];
    assert Shared(a) && s.leader[a] == r && w in s.inflight[a];
    ServedCalls(s.inflight[a], r, result);
    hide Shared, Served, Store, Called, NoDup, Led, Listed, Apart;
  }

  lemma {:induction false} StillJoined(ss: seq<State>, ms: seq<Move>, i: nat, j: nat, w: Id)
    requires Run(ss, ms) && i <= j < |ss| && w in ss[i].joined
    requires forall k :: i <= k < j ==> !(ms[k].EndRun? && ms[k].run == ss[i].joined[w])
    ensures w in ss[j].joined && ss[j].joined[w] == ss[i].joined[w]
    decreases j
  {
    if i < j {
      StillJoined(ss, ms, i, j - 1, w);
      InvAlways(ss, ms, j - 1);
      hide Inv, Step, Possible;
      JoinedStays(ss[j - 1], ms[j - 1], w);
    }
  }

  /** A call that joined a run gets the result of that very run when it ends, whatever else
      happens in between. */
  lemma WaiterGetsThatRun(ss: seq<State>, ms: seq<Move>, i: nat, j: nat, w: Id)
    requires Run(ss, ms) && i <= j < |ms| && w in ss[i].joined
    requires ms[j].EndRun? && ms[j].run == ss[i].joined[w]
    requires forall k :: i <= k < j ==> !(ms[k].EndRun? && ms[k].run == ss[i].joined[w])
    ensures Answer(w, Some(ms[j].run), ms[j].result) in ss[j + 1].answers
  {
    StillJoined(ss, ms, i, j, w);
    InvAlways(ss, ms, j);
    assert Possible(ss[j], ms[j]) && ss[j + 1] == Step(ss[j], ms[j]);
    hide Inv, Finish, Run;
    ServedAtEnd(ss[j], ms[j].run, ms[j].result, ms[j].now, w);
  }

  /** An answer from the cache is what a run of the same command came to less than a second
      before. */
  lemma CacheIsRecent(ss: seq<State>, ms: seq<Move>, i: nat, argv: Argv, now: nat)
    requires Run(ss, ms) && i < |ss| && Hit(ss[i], argv, now)
    ensures exists f ::
      f in ss[i].finished && f.argv == argv && f.result == Ok(ss[i].cache[argv].1) && now < f.at + CACHE_LIFE
  {
    InvAlways(ss, ms, i);
    var (at, v) := ss[i].cache[argv];
    assert Finished(argv, Ok(v), at) in ss[i].finished;
  }

  // ---------------------------------------------------------------- no call is lost

  /** Where a call ends up: refused, served from the cache, waiting for the run there is, or with a
      run of its own, which others can join if the command is shared. */
  lemma CallMeans(s: State, id: Id, argv: Argv, now: nat)
    requires Inv(s) && !Known(s, id)
    ensures var t := Call(s, id, argv, now);
      if !Allowed(argv) then t == Tell(s, Answer(id, None, Err("not allowed")))
      else if Shared(argv) && Hit(s, argv, now) then t == Tell(s, Answer(id, None, Ok(s.cache[argv].1)))
      else if Shared(argv) && argv in s.inflight then
        && t.running == s.running && t.answers == s.answers && id in t.joined && t.joined[id] == s.leader[argv]
        && t.inflight[argv] == s.inflight[argv] + [id]
      else
        && t.running == s.running[id := argv] && t.answers == s.answers && t.joined == s.joined
        && (Shared(argv) ==> argv in t.inflight && t.inflight[argv] == [] && t.leader[argv] == id)
  {
    hide Allowed, Shared, NoDup, Called;
  }

  /** A run that ends answers its own call last, and leaves a shared command's result for a
      second, unless it changed the settings: then everything cached is forgotten. */
  lemma FinishMeans(s: State, r: Id, result: Result, now: nat)
    requires r in s.running
    ensures var (a, t) := (s.running[r], Finish(s, r, result, now));
      && t.running == s.running - {r} && t.answers != [] && t.answers[|t.answers| - 1] == Answer(r, Some(r), result)
      && (Shared(a) ==> a !in t.inflight)
    ensures var (a, t) := (s.running[r], Finish(s, r, result, now));
      && (Shared(a) && result.Ok? ==> a in t.cache && t.cache[a] == (now, result.value))
      && (ChangesPerf(a) && result.Ok? && result.value.ok ==> t.cache == map[])
      && (!(Shared(a) || ChangesPerf(a)) || result.Err? ==> t.cache == s.cache)
  {
    SharedOnlyReads(s.running[r]);
    hide Shared, ChangesPerf, Served, Elements;
  }

  lemma KnownStays(s: State, m: Move, id: Id)
    requires Inv(s) && Possible(s, m) && Known(s, id)
    ensures Known(Step(s, m), id)
  {
    match m
    case MakeCall(c, argv, now) => CallKnown(s, c, argv, now, id);
    case EndRun(r, result, now) => FinishKnown(s, r, result, now, id);
  }

  lemma TellKnown(s: State, a: Answer, id: Id)
    ensures Known(Tell(s, a), id) <==> Known(s, id) || id == a.call
  {
    CalledNext(s.answers, [a]);
    assert Called([a]) == [a.call];
    hide Called;
  }

  lemma CallKnown(s: State, c: Id, argv: Argv, now: nat, id: Id)
    requires Inv(s) && !Known(s, c) && (Known(s, id) || id == c)
    ensures Known(Call(s, c, argv, now), id)
  {
    assert argv in s.inflight ==> argv in s.leader;
    TellKnown(s, Answer(c, None, Err("not allowed")), id);
    if argv in s.cache { TellKnown(s, Answer(c, None, Ok(s.cache[argv].1)), id); }
    hide Inv, Allowed, Shared, NoDup, Called, Tell;
  }

  lemma FinishKnown(s: State, r: Id, result: Result, now: nat, id: Id)
    requires Inv(s) && r in s.running && Known(s, id)
    ensures Known(Finish(s, r, result, now), id)
  {
    var a := s.running[r];
    var t := Ended(s, r, result, now);
    if Shared(a) {
      var ws := s.inflight[a];
      ServedCalls(ws, r, result);
      CalledNext(s.answers, Served(ws, r, result));
      assert forall w :: w in Elements(ws) <==> w in ws;
      t := Serve(t, a, r, result);
    }
    assert Known(t, id) || id == r by { hide Shared, Store, Served, NoDup, Called, Inv; }
    hide Inv, Shared, Serve, Ended, Called, Known, Tell, Store;
    TellKnown(t, Answer(r, Some(r), result), id);
  }

  /** A call that was made is running, waiting or answered ever after. */
  lemma {:induction false} NeverLost(ss: seq<State>, ms: seq<Move>, i: nat, j: nat)
    requires Run(ss, ms) && i < j < |ss| && ms[i].MakeCall?
    ensures Known(ss[j], ms[i].id)
    decreases j
  {
    hide Inv, Call, Finish, Known;
    InvAlways(ss, ms, j - 1);
    if i + 1 == j {
      CallKnown(ss[i], ms[i].id, ms[i].argv, ms[i].now, ms[i].id);
    } else {
      NeverLost(ss, ms, i, j - 1);
      hide Step, Possible;
      KnownStays(ss[j - 1], ms[j - 1], ms[i].id);
    }
  }
}
