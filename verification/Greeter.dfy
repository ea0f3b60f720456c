/** The login conversation with greetd (mindshell/src/greeter.rs) and the slot the login screen
    keeps it in while greetd waits for an answer (mindshell/src/app.rs). What greetd will say is
    a script: every request takes the next reply, and after the last the line is dead. */
module Greeter {
  import opened Common
  import Text

  datatype Reply =
    | Success
    | Error(auth: bool, description: string)
    | Secret(message: string)
    | Visible(message: string)
    | Info(message: string)
    | Unknown
    | Lost

  datatype Request =
    | Create(user: string)
    | Password(text: string)
    | Answer(response: Option<string>)
    | Acknowledge
    | StartSession(cmd: seq<string>, env: seq<string>)
    | Cancel

  datatype Exchange = Exchange(request: Request, reply: Reply)

  datatype Outcome =
    | Started
    | Prompt(secret: bool, message: string, notes: seq<string>)
    | Failed(message: string, notes: seq<string>)
    | Broken

  /** What a login was begun with. */
  datatype Given = Given(user: string, password: string, cmd: seq<string>, env: seq<string>)

  /** A conversation. The last four fields are its script and its history: what it was begun
      with, what was said, and the notes handed out so far. */
  datatype Talk = Talk(
    password: Option<string>,
    cmd: seq<string>,
    env: seq<string>,
    notes: seq<string>,
    script: seq<Reply>,
    given: Given,
    log: seq<Exchange>,
    reported: seq<string>)

  function Send(t: Talk, q: Request): (Talk, Reply) {
    if t.script == [] then (t.(log := t.log + [Exchange(q, Lost)]), Lost)
    else (t.(script := t.script[1..], log := t.log + [Exchange(q, t.script[0])]), t.script[0])
  }

  /** Hand over the notes collected so far. */
  function Report(t: Talk): Talk {
    t.(notes := [], reported := t.reported + t.notes)
  }

  function Note(t: Talk, message: string): Talk {
    var m := Text.Trim(message);
    if m == "" then t else t.(notes := t.notes + [m])
  }

  /** What `drive` sends for a reply, if it goes on. */
  function Next(t: Talk, reply: Reply): Option<(Talk, Request)> {
    match reply
    case Success => if t.cmd == [] then None else Some((t.(cmd := [], env := []), StartSession(t.cmd, t.env)))
    case Secret(_) => if t.password.Some? then Some((t.(password := None), Password(t.password.value))) else None
    case Info(message) => Some((Note(t, message), Acknowledge))
    case _ => None
  }

  /** What it returns if it does not. */
  function Final(t: Talk, reply: Reply): (Talk, Outcome) {
    match reply
    case Success => (t, Started)
    case Error(auth, description) =>
      var t := Send(t, Cancel).0;
      if auth then (Report(t), Failed(description, t.notes)) else (t, Broken)
    case Secret(message) => (Report(t), Prompt(true, Text.Trim(message), t.notes))
    case Visible(message) => (Report(t), Prompt(false, Text.Trim(message), t.notes))
    case _ => (t, Broken)
  }

  /** `drive`. */
  function Drive(t: Talk, reply: Reply): (Talk, Outcome)
    decreases |t.script|
  {
    match Next(t, reply)
    case None => Final(t, reply)
    case Some((t1, q)) =>
      var (t2, r) := Send(t1, q);
      if r.Lost? then (t2, Broken) else Drive(t2, r)
  }

  function Begun(given: Given, script: seq<Reply>): Talk {
    Talk(Some(given.password), given.cmd, given.env, [], script, given, [], [])
  }

  function Ask(t: Talk, q: Request): (Talk, Outcome) {
    var (t, r) := Send(t, q);
    if r.Lost? then (t, Broken) else Drive(t, r)
  }

  function Start(given: Given, script: seq<Reply>): (Talk, Outcome) {
    Ask(Begun(given, script), Create(given.user))
  }

  function Respond(t: Talk, response: Option<string>): (Talk, Outcome) {
    Ask(t, Answer(response))
  }

  // -------------------------------------------------------------- as the source keeps it

  class Login {
    var password: Option<string>
    var cmd: seq<string>
    var env: seq<string>
    var notes: seq<string>
    var script: seq<Reply>
    ghost var given: Given
    ghost var log: seq<Exchange>
    ghost var reported: seq<string>

    ghost function View(): Talk
      reads this
    {
      Talk(password, cmd, env, notes, script, given, log, reported)
    }

    constructor (given: Given, script: seq<Reply>)
      ensures View() == Begun(given, script)
    {
      password := Some(given.password);
      cmd, env, notes := given.cmd, given.env, [];
      this.script := script;
      this.given, log, reported := given, [], [];
    }

    method SendRequest(q: Request) returns (reply: Reply)
      modifies this
      ensures (View(), reply) == Send(old(View()), q)
    {
      reply := Lost;
      if script != [] {
        reply := script[0];
        script := script[1..];
      }
      log := log + [Exchange(q, reply)];
    }

    method TakeNotes() returns (taken: seq<string>)
      modifies this
      ensures View() == Report(old(View())) && taken == old(notes)
    {
      taken := notes;
      reported := reported + notes;
      notes := [];
    }

    method DriveOn(first: Reply) returns (outcome: Outcome)
      modifies this
      ensures (View(), outcome) == Drive(old(View()), first)
    {
      var reply := first;
      while true
        invariant Drive(View(), reply) == Drive(old(View()), first)
        decreases |script|
      {
        var q;
        match reply {
          case Success =>
            if cmd == [] {
              return Started;
            }
            q := StartSession(cmd, env);
            cmd, env := [], [];
          case Error(auth, description) =>
            var _ := SendRequest(Cancel);
            if auth {
              var taken := TakeNotes();
              return Failed(description, taken);
            }
            return Broken;
          case Secret(message) =>
            if password.None? {
              var taken := TakeNotes();
              return Prompt(true, Text.Trim(message), taken);
            }
            q := Password(password.value);
            password := None;
          case Visible(message) =>
            var taken := TakeNotes();
            return Prompt(false, Text.Trim(message), taken);
          case Info(message) =>
            var m := Text.Trim(message);
            if m != "" {
              notes := notes + [m];
            }
            q := Acknowledge;
          case _ =>
            return Broken;
        }
        reply := SendRequest(q);
        if reply.Lost? {
          return Broken;
        }
      }
    }

    /** The rest of `start`, and `respond`: a request, then what greetd makes of it. */
    method AskFor(q: Request) returns (outcome: Outcome)
      modifies this
      ensures (View(), outcome) == Ask(old(View()), q)
    {
      var reply := SendRequest(q);
      if reply.Lost? {
        return Broken;
      }
      outcome := DriveOn(reply);
    }
  }

  // ------------------------------------------------------------------ what may be said

  ghost predicate IsPrompt(r: Reply) {
    r.Secret? || r.Visible?
  }

  /** A request in its place: directly behind the reply that calls for it. */
  ghost predicate InPlace(log: seq<Exchange>, k: nat)
    requires k < |log|
  {
    match log[k].request
    case Create(_) => k == 0
    case Password(_) => k > 0 && log[k - 1].reply.Secret?
    case Answer(_) => k > 0 && IsPrompt(log[k - 1].reply)
    case Acknowledge => k > 0 && log[k - 1].reply.Info?
    case StartSession(_, _) => k > 0 && log[k - 1].reply.Success?
    case Cancel => true
  }

  ghost predicate Orderly(log: seq<Exchange>) {
    forall k :: 0 <= k < |log| ==> InPlace(log, k)
  }

  ghost function Passwords(log: seq<Exchange>): nat {
    if log == [] then 0 else Passwords(log[..|log| - 1]) + if log[|log| - 1].request.Password? then 1 else 0
  }

  ghost function Starts(log: seq<Exchange>): nat {
    if log == [] then 0 else Starts(log[..|log| - 1]) + if log[|log| - 1].request.StartSession? then 1 else 0
  }

  /** The notes greetd gave, in order; what it says to a cancel is not read. */
  ghost function NotesIn(log: seq<Exchange>): seq<string> {
    if log == [] then []
    else
      var last := log[|log| - 1];
      NotesIn(log[..|log| - 1]) + if last.reply.Info? && !last.request.Cancel? && Text.Trim(last.reply.message) != ""
        then [Text.Trim(last.reply.message)] else []
  }

  ghost predicate Counted(t: Talk) {
    && Passwords(t.log) == (if t.password.Some? then 0 else 1)
    && (t.cmd == t.given.cmd || t.cmd == [])
    && Starts(t.log) == (if t.given.cmd != [] && t.cmd == [] then 1 else 0)
  }

  /** Everything said was in its place and said at most once; no note is lost or repeated. */
  ghost predicate Sound(t: Talk) {
    && Orderly(t.log)
    && Counted(t)
    && t.reported + t.notes == NotesIn(t.log)
  }

  /** In the middle of `drive`: the last reply is still to be taken in. */
  ghost predicate Holding(t: Talk, reply: Reply) {
    && Orderly(t.log)
    && Counted(t)
    && t.log != [] && t.log[|t.log| - 1].reply == reply && !t.log[|t.log| - 1].request.Cancel?
    && t.reported + t.notes == NotesIn(t.log[..|t.log| - 1])
  }

  lemma OrderlyNext(log: seq<Exchange>, e: Exchange)
    requires Orderly(log) && InPlace(log + [e], |log|)
    ensures Orderly(log + [e])
  {
    var all := log + [e];
    forall k | 0 <= k < |all| ensures InPlace(all, k) {
      if k < |log| { assert InPlace(log, k) && all[k] == log[k] && (k > 0 ==> all[k - 1] == log[k - 1]); }
    }
  }

  /** A reply that is taken in without a note leaves the conversation sound. */
  lemma TakenIn(t: Talk, reply: Reply)
    requires Holding(t, reply) && !reply.Info?
    ensures Sound(t)
  {
  }

  lemma NoteTakenIn(t: Talk, reply: Reply)
    requires Holding(t, reply) && reply.Info?
    ensures Sound(Note(t, reply.message))
  {
  }

  /** Sending what is called for, once the last reply is taken in. */
  lemma SendHolds(t: Talk, q: Request, was: Talk)
    requires Orderly(was.log) && Counted(t) && t.reported + t.notes == NotesIn(t.log)
    requires t.log == was.log && !q.Cancel?
    requires InPlace(t.log + [Exchange(q, Send(t, q).1)], |t.log|)
    requires !q.Password? && !q.StartSession?
    ensures Holding(Send(t, q).0, Send(t, q).1)
  {
    var e := Exchange(q, Send(t, q).1);
    OrderlyNext(t.log, e);
    assert (t.log + [e])[..|t.log|] == t.log;
  }

  lemma SendPassword(t: Talk)
    requires Sound(t) && t.password.Some? && t.log != [] && t.log[|t.log| - 1].reply.Secret?
    ensures var (u, r) := Send(t.(password := None), Password(t.password.value)); Holding(u, r)
  {
    var e := Exchange(Password(t.password.value), Send(t, Cancel).1);
    OrderlyNext(t.log, e);
    assert (t.log + [e])[..|t.log|] == t.log;
  }

  lemma SendStart(t: Talk)
    requires Sound(t) && t.cmd != [] && t.log != [] && t.log[|t.log| - 1].reply.Success?
    ensures var (u, r) := Send(t.(cmd := [], env := []), StartSession(t.cmd, t.env)); Holding(u, r)
  {
    var e := Exchange(StartSession(t.cmd, t.env), Send(t, Cancel).1);
    OrderlyNext(t.log, e);
    assert (t.log + [e])[..|t.log|] == t.log;
  }

  /** One turn of the loop. */
  lemma NextHolds(t: Talk, reply: Reply)
    requires Holding(t, reply) && Next(t, reply).Some?
    ensures var (u, q) := Next(t, reply).value; Holding(Send(u, q).0, Send(u, q).1)
  {
    hide Orderly, Counted, NotesIn;
    match reply
    case Success => TakenIn(t, reply); SendStart(t);
    case Secret(_) => TakenIn(t, reply); SendPassword(t);
    case Info(message) =>
      NoteTakenIn(t, reply);
      SendHolds(Note(t, message), Acknowledge, t);
    case _ =>
  }

  /** greetd waits for the user. */
  ghost predicate Waiting(t: Talk) {
    t.log != [] && IsPrompt(t.log[|t.log| - 1].reply) && !t.log[|t.log| - 1].request.Cancel?
  }

  /** The session is really queued: greetd accepted what came last, and it was asked to start
      the command, if there is one. */
  ghost predicate Queued(t: Talk) {
    && t.log != [] && t.log[|t.log| - 1].reply.Success? && !t.log[|t.log| - 1].request.Cancel?
    && (t.given.cmd != [] ==> Starts(t.log) == 1)
  }

  /** What an outcome says is what greetd said: the prompt it asked, the error it gave; the user is
      asked for a secret only once the password was used; and nothing else breaks it off. */
  ghost predicate Fits(t: Talk, o: Outcome) {
    match o
    case Started => Queued(t)
    case Prompt(secret, message, _) =>
      && Waiting(t) && t.notes == []
      && secret == Last(t).reply.Secret? && message == Text.Trim(Last(t).reply.message) && (secret ==> t.password.None?)
    case Failed(message, _) =>
      && |t.log| >= 2 && Last(t).request == Cancel && t.notes == []
      && t.log[|t.log| - 2].reply == Error(true, message)
    case Broken =>
      && t.log != []
      && (|| Last(t).reply.Lost? || Last(t).reply.Unknown?
          || (|t.log| >= 2 && Last(t).request == Cancel && t.log[|t.log| - 2].reply.Error? &&
               !t.log[|t.log| - 2].reply.auth))
  }

  ghost function Last(t: Talk): Exchange
    requires t.log != []
  {
    t.log[|t.log| - 1]
  }

  lemma BrokenFits(t: Talk)
    requires t.log != [] && Last(t).reply.Lost?
    ensures Fits(t, Broken)
  {
  }

  lemma CancelSound(t: Talk)
    requires Sound(t)
    ensures Sound(Send(t, Cancel).0)
  {
    var e := Exchange(Cancel, Send(t, Cancel).1);
    OrderlyNext(t.log, e);
  }

  lemma FinalFits(t: Talk, reply: Reply)
    requires Holding(t, reply) && Next(t, reply).None?
    ensures Sound(Final(t, reply).0) && Fits(Final(t, reply).0, Final(t, reply).1)
  {
    assert t.log != [] && t.log[|t.log| - 1].reply == reply && !t.log[|t.log| - 1].request.Cancel?;
    hide Sound, NotesIn, Orderly, Counted, Starts, Passwords, Holding, Text.Trim;
    TakenIn(t, reply);
    match reply
    case Success =>
    case Error(_, _) => ErrorFits(t, reply);
    case Secret(_) => ReportSound(t);
    case Visible(_) => ReportSound(t);
    case _ =>
  }

  lemma ErrorFits(t: Talk, reply: Reply)
    requires Sound(t) && reply.Error? && t.log != [] && Last(t).reply == reply
    ensures Sound(Final(t, reply).0) && Fits(Final(t, reply).0, Final(t, reply).1)
  {
    hide Sound;
    CancelSound(t);
    ReportSound(Send(t, Cancel).0);
  }

  lemma ReportSound(t: Talk)
    requires Sound(t)
    ensures Sound(Report(t))
  {
  }

  lemma HoldingLast(t: Talk, reply: Reply)
    requires Holding(t, reply)
    ensures t.log != [] && Last(t).reply == reply
  {
  }

  lemma {:induction false} DriveSound(t: Talk, reply: Reply)
    requires Holding(t, reply)
    ensures Sound(Drive(t, reply).0) && Fits(Drive(t, reply).0, Drive(t, reply).1)
    decreases |t.script|
  {
    if Next(t, reply).None? {
      hide Sound, Fits, Holding, Final;
      FinalFits(t, reply);
    } else {
      var (u, q) := Next(t, reply).value;
      var (v, r) := Send(u, q);
      assert !r.Lost? ==> |v.script| < |t.script|;
      hide Sound, Fits, Holding, Next, Send, Final;
      NextHolds(t, reply);
      if r.Lost? { TakenIn(v, r); HoldingLast(v, r); BrokenFits(v); } else { DriveSound(v, r); }
    }
  }

  lemma StartSound(given: Given, script: seq<Reply>)
    ensures var (t, o) := Start(given, script); Sound(t) && Fits(t, o) && t.given == given && Words(t)
  {
    var t := Begun(given, script);
    SendHolds(t, Create(given.user), t);
    var (u, r) := Send(t, Create(given.user));
    SendWords(t, Create(given.user));
    if r.Lost? { TakenIn(u, r); } else { DriveSound(u, r); DriveWords(u, r); }
  }

  lemma RespondSound(t: Talk, response: Option<string>)
    requires Sound(t) && Waiting(t) && Words(t)
    ensures var (u, o) := Respond(t, response); Sound(u) && Fits(u, o) && u.given == t.given && Words(u)
  {
    SendHolds(t, Answer(response), t);
    var (u, r) := Send(t, Answer(response));
    SendWords(t, Answer(response));
    hide Orderly, NotesIn, Counted, Words;
    if r.Lost? { TakenIn(u, r); } else { DriveSound(u, r); DriveWords(u, r); }
  }

  // -------------------------------------------------------------------- what is said

  /** The user, the password and the command are those the login was begun with. */
  ghost predicate TrueTo(given: Given, q: Request) {
    match q
    case Create(user) => user == given.user
    case Password(text) => text == given.password
    case StartSession(cmd, env) => cmd == given.cmd && env == given.env
    case _ => true
  }

  ghost predicate Words(t: Talk) {
    && (t.password.Some? ==> t.password.value == t.given.password)
    && (t.cmd != [] ==> t.cmd == t.given.cmd && t.env == t.given.env)
    && forall k :: 0 <= k < |t.log| ==> TrueTo(t.given, t.log[k].request)
  }

  lemma SendWords(t: Talk, q: Request)
    requires Words(t) && TrueTo(t.given, q)
    ensures Words(Send(t, q).0) && Send(t, q).0.given == t.given
  {
  }

  lemma {:induction false} DriveWords(t: Talk, reply: Reply)
    requires Words(t)
    ensures Words(Drive(t, reply).0) && Drive(t, reply).0.given == t.given
    decreases |t.script|
  {
    if Next(t, reply).None? {
      SendWords(t, Cancel);
      hide Send, Text.Trim;
    } else {
      var (u, q) := Next(t, reply).value;
      assert Words(u) && TrueTo(t.given, q) && u.given == t.given;
      SendWords(u, q);
      var (v, r) := Send(u, q);
      assert !r.Lost? ==> |v.script| < |t.script|;
      hide Words, Send, Next;
      if !r.Lost? { DriveWords(v, r); }
    }
  }

  /** The notes an outcome carries. */
  function NotesOf(o: Outcome): seq<string> {
    if o.Prompt? || o.Failed? then o.notes else []
  }

  /** What was said before stays said, and what is handed out is what the outcome carries. */
  lemma {:induction false} DriveReports(t: Talk, reply: Reply)
    ensures var (u, o) := Drive(t, reply); t.log <= u.log && u.reported == t.reported + NotesOf(o)
    decreases |t.script|
  {
    if Next(t, reply).Some? {
      var (u, q) := Next(t, reply).value;
      var (v, r) := Send(u, q);
      assert t.log <= v.log && v.reported == t.reported;
      if !r.Lost? { DriveReports(v, r); }
    }
  }

  /** An answer goes out as it was typed, and the user's part of it first. */
  lemma RespondSays(t: Talk, response: Option<string>)
    ensures var (u, o) := Respond(t, response);
      && |u.log| > |t.log| && t.log == u.log[..|t.log|] && u.log[|t.log|].request == Answer(response)
      && u.reported == t.reported + NotesOf(o)
  {
    var (v, r) := Send(t, Answer(response));
    if !r.Lost? { DriveReports(v, r); }
  }

  /** A login begins by naming the user. */
  lemma StartSays(given: Given, script: seq<Reply>)
    ensures var (u, o) := Start(given, script);
      u.log != [] && u.log[0].request == Create(given.user) && u.reported == NotesOf(o)
  {
    var (v, r) := Send(Begun(given, script), Create(given.user));
    if !r.Lost? { DriveReports(v, r); }
  }

  // ------------------------------------------------------------------ the login screen

  /** The conversation kept for an answer, those a worker thread is busy with, and those that
      are over, each with what it came to unless it was given up. */
  datatype Screen = Screen(slot: Option<Talk>, busy: seq<(Talk, Outcome)>, over: seq<(Talk, Option<Outcome>)>)

  datatype Move =
    | LogIn(user: string, password: string, exec: string, script: seq<Reply>)
    | Reply(response: Option<string>)
    | GiveUp
    | Land(index: nat)

  ghost predicate Possible(s: Screen, m: Move) {
    m.Land? ==> m.index < |s.busy|
  }

  function Abandon(s: Screen): Screen {
    if s.slot.None? then s else s.(slot := None, over := s.over + [(Send(s.slot.value, Cancel).0, None)])
  }

  /** `greeter_outcome` keeps a conversation only while greetd waits. */
  function Keep(s: Screen, t: Talk, o: Outcome): Screen {
    if o.Prompt? then
      s.(slot := Some(t), over := s.over + if s.slot.Some? then [(s.slot.value, None)] else [])
    else s.(over := s.over + [(t, Some(o))])
  }

  ghost function Step(s: Screen, m: Move): Screen
    requires Possible(s, m)
  {
    match m
    case LogIn(user, password, exec, script) =>
      var s := Abandon(s);
      s.(busy := s.busy + [Start(Given(user, password, [exec], []), script)])
    case Reply(response) =>
      if s.slot.None? then s else s.(slot := None, busy := s.busy + [Respond(s.slot.value, response)])
    case GiveUp => Abandon(s)
    case Land(i) => Keep(s.(busy := s.busy[..i] + s.busy[i + 1..]), s.busy[i].0, s.busy[i].1)
  }

  ghost predicate Good(t: Talk, o: Option<Outcome>) {
    Sound(t) && Words(t) && (o.Some? ==> Fits(t, o.value)) && t.given.cmd != []
  }

  ghost predicate Inv(s: Screen) {
    && (s.slot.Some? ==> Good(s.slot.value, None) && Waiting(s.slot.value))
    && (forall c :: c in s.busy ==> Good(c.0, Some(c.1)))
    && (forall c :: c in s.over ==> Good(c.0, c.1))
  }

  lemma AbandonKeeps(s: Screen)
    requires Inv(s)
    ensures Inv(Abandon(s))
  {
    if s.slot.Some? {
      CancelSound(s.slot.value);
      SendWords(s.slot.value, Cancel);
      hide Sound, Waiting, Send, Words;
    }
  }

  lemma StepKeeps(s: Screen, m: Move)
    requires Inv(s) && Possible(s, m)
    ensures Inv(Step(s, m))
  {
    hide Sound, Start, Respond, Send, Waiting, Fits, Words;
    match m
    case LogIn(user, password, exec, script) =>
      AbandonKeeps(s);
      StartSound(Given(user, password, [exec], []), script);
      hide Abandon;
    case Reply(response) =>
      if s.slot.Some? { RespondSound(s.slot.value, response); }
    case GiveUp => AbandonKeeps(s);
    case Land(i) => LandKeeps(s, i);
  }

  lemma LandKeeps(s: Screen, i: nat)
    requires Inv(s) && i < |s.busy|
    ensures Inv(Step(s, Land(i)))
  {
    var (t, o) := s.busy[i];
    assert s.busy[i] in s.busy && Good(t, Some(o));
    assert o.Prompt? ==> Waiting(t);
    hide Sound, Waiting, Fits, Words;
  }

  ghost predicate Run(ss: seq<Screen>, ms: seq<Move>) {
    && |ss| == |ms| + 1
    && ss[0] == Screen(None, [], [])
    && forall i :: 0 <= i < |ms| ==> Possible(ss[i], ms[i]) && ss[i + 1] == Step(ss[i], ms[i])
  }

  lemma {:induction false} InvAlways(ss: seq<Screen>, ms: seq<Move>, i: nat)
    requires Run(ss, ms) && i < |ss|
    ensures Inv(ss[i])
  {
    if i > 0 {
      InvAlways(ss, ms, i - 1);
      StepKeeps(ss[i - 1], ms[i - 1]);
    }
  }

  /** The conversation is somewhere on the screen. */
  ghost predicate Ever(s: Screen, t: Talk) {
    s.slot == Some(t) || (exists o :: (t, o) in s.busy) || (exists o :: (t, o) in s.over)
  }

  /** Whatever greetd says and the user does: in every conversation the password goes out at
      most once and directly behind a secret prompt, the session is started at most once and
      directly behind a success, an answer follows only a prompt, and each note came out once,
      in order, or is still held. */
  lemma EveryConversation(ss: seq<Screen>, ms: seq<Move>, i: nat, t: Talk)
    requires Run(ss, ms) && i < |ss| && Ever(ss[i], t)
    ensures Passwords(t.log) <= 1 && Starts(t.log) <= 1
    ensures forall k :: 0 <= k < |t.log| ==> InPlace(t.log, k)
    ensures forall k :: 0 <= k < |t.log| ==> TrueTo(t.given, t.log[k].request)
    ensures t.reported + t.notes == NotesIn(t.log)
  {
    InvAlways(ss, ms, i);
    hide Run, NotesIn, InPlace, TrueTo;
  }

  /** A login is reported as started only after greetd was asked to start the session, and what
      it said last was success. */
  lemma StartedMeansStarted(ss: seq<Screen>, ms: seq<Move>, i: nat, t: Talk)
    requires Run(ss, ms) && i < |ss| && ((t, Started) in ss[i].busy || (t, Some(Started)) in ss[i].over)
    ensures Starts(t.log) == 1 && t.log != [] && t.log[|t.log| - 1].reply.Success?
  {
    InvAlways(ss, ms, i);
    assert Good(t, Some(Started));
  }

  /** The four things that happen on the screen: a login gives up what was waiting, with a cancel,
      and begins with what was typed; an answer goes to the conversation that waits; giving up
      cancels it; and a result is kept in the slot if and only if it is a prompt. */
  lemma ScreenMeans(s: Screen, m: Move)
    requires Possible(s, m)
    ensures var t := Step(s, m);
      match m
      case LogIn(user, password, exec, script) =>
        t.slot.None? && t.busy == s.busy + [Start(Given(user, password, [exec], []), script)] && Cancelled(s, t)
      case Reply(response) =>
        t.slot.None? && t.over == s.over &&
        t.busy == s.busy + if s.slot.Some? then [Respond(s.slot.value, response)] else []
      case GiveUp => t.slot.None? && t.busy == s.busy && Cancelled(s, t)
      case Land(i) =>
        && t.slot == (if s.busy[i].1.Prompt? then Some(s.busy[i].0) else s.slot)
        && (!s.busy[i].1.Prompt? ==> t.over == s.over + [(s.busy[i].0, Some(s.busy[i].1))])
  {
    hide Start, Respond;
  }

  /** The conversation that waited, if any, was told off and is over. */
  ghost predicate Cancelled(s: Screen, t: Screen) {
    if s.slot.None? then t.over == s.over
    else
      && |t.over| == |s.over| + 1 && t.over[..|s.over|] == s.over
      && var (was, now) := (s.slot.value, t.over[|s.over|].0);
         |now.log| == |was.log| + 1 && now.log[..|was.log|] == was.log && now.log[|was.log|].request == Cancel
  }
}
