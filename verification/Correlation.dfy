/** Requests and replies on the shell's side of the IPC socket (mindshell/src/ipc.rs), with
    the compositor's echo of ids (mindwm/src/ipc.rs), across reconnects.

    The main loop's tasks and the reader thread are interleaved as atomic steps under the
    mutex; a reply the reader has looked up is delivered in a step of its own. */
module Correlation {
  import opened Common

  type Id = nat
  type Chan = nat    // the receiving end a request waits on
  type Body = nat    // the request, whatever it says

  datatype Msg = Msg(id: Id, body: Body)
  /** A line of the compositor: the reply to a request, or an event. */
  datatype Line = Answer(id: Id, about: Body) | Event
  datatype Reply = Got(id: Id, about: Body) | Disconnected

  /** What the mutex guards. */
  datatype Shared = Shared(stream: bool, pending: map<Id, Chan>, nextId: Id, connected: bool)

  // --------------------------------------------------------------- the client

  class IpcClient {
    var stream: bool
    var pending: map<Id, Chan>
    var nextId: Id
    var connected: bool

    ghost function View(): Shared
      reads this
    {
      Shared(stream, pending, nextId, connected)
    }

    constructor ()
      ensures View() == Fresh()
    {
      stream, pending, nextId, connected := false, map[], 1, false;
    }

    /** Send without waiting. The id is spent even when there is no connection. */
    method Send(body: Body) returns (line: Option<Msg>)
      modifies this
      ensures View() == Spent(old(View())) && line == if old(stream) then Some(Msg(old(nextId), body)) else None
    {
      var id := nextId;
      nextId := nextId + 1;
      if !stream {
        return None;
      }
      return Some(Msg(id, body));
    }

    /** Register a request; `wrote` is what becomes of the write. None: the caller is told at
        once that there is no connection, or that the write failed. */
    method Request(body: Body, chan: Chan, wrote: bool) returns (waiting: Option<Id>)
      requires nextId !in pending
      modifies this
      ensures View() == Requested(old(View()), chan, wrote)
      ensures waiting == if old(stream) && wrote then Some(old(nextId)) else None
    {
      if !stream {
        return None;
      }
      var id := nextId;
      nextId := nextId + 1;
      pending := pending[id := chan];
      if !wrote {
        pending := pending - {id};
        assert pending == old(pending);
        return None;
      }
      return Some(id);
    }

    /** The reader takes the waiting channel out for a reply line. */
    method TakeWaiter(id: Id) returns (chan: Option<Chan>)
      modifies this
      ensures View() == Taken(old(View()), id)
      ensures chan == if id in old(pending) then Some(old(pending)[id]) else None
    {
      if id in pending {
        chan := Some(pending[id]);
        pending := pending - {id};
      } else {
        assert pending - {id} == pending;
        chan := None;
      }
    }

    method Attach()
      modifies this
      ensures View() == old(View()).(stream := true, connected := true)
    {
      stream, connected := true, true;
    }

    /** The connection is gone: every waiter is told, once. */
    method Detach() returns (told: seq<Chan>)
      requires forall a, b :: a in pending && b in pending && a != b ==> pending[a] != pending[b]
      modifies this
      ensures View() == old(View()).(stream := false, connected := false, pending := map[])
      ensures NoDup(told) && Elements(told) == old(pending).Values
    {
      stream, connected := false, false;
      told := Drained(pending);
      pending := map[];
    }
  }

  /** The channels of a map of waiters, in some order. */
  method Drained(waiters: map<Id, Chan>) returns (told: seq<Chan>)
    requires forall a, b :: a in waiters && b in waiters && a != b ==> waiters[a] != waiters[b]
    ensures NoDup(told) && Elements(told) == waiters.Values
  {
    var left := waiters.Keys;
    told := [];
    while left != {}
      invariant left <= waiters.Keys && NoDup(told)
      invariant forall id :: id in waiters ==> (id in left <==> waiters[id] !in told)
      invariant forall c :: c in told ==> c in waiters.Values
      decreases left
    {
      var id :| id in left;
      left := left - {id};
      told := told + [waiters[id]];
    }
    assert forall c :: c in Elements(told) <==> c in told;
  }

  function Fresh(): Shared { Shared(false, map[], 1, false) }
  function Spent(s: Shared): Shared { s.(nextId := s.nextId + 1) }
  function Registered(s: Shared, chan: Chan): Shared {
    s.(pending := s.pending[s.nextId := chan], nextId := s.nextId + 1)
  }

  function Requested(s: Shared, chan: Chan, wrote: bool): Shared {
    if !s.stream then s else if wrote then Registered(s, chan) else Spent(s)
  }

  function Taken(s: Shared, id: Id): Shared { s.(pending := s.pending - {id}) }

  // ------------------------------------------------------------ the whole system

  datatype System = System(
    client: Shared,
    toServer: seq<Msg>, toClient: seq<Line>,   // the connection there is, if any
    holding: Option<(Chan, Reply)>,            // looked up, about to be delivered
    nextChan: Chan,
    issued: map<Id, Body>,                     // every id ever spent, and on what
    asked: map<Chan, (Id, Body)>,              // every request that got to wait
    delivered: map<Chan, seq<Reply>>)          // what its channel was sent

  datatype Step =
    | Connect
    | SendOnly(body: Body, wrote: bool)
    | Ask(body: Body, wrote: bool, leaked: bool)   // `leaked`: a failed write got through all the same
    | Serve                                        // the compositor answers, echoing the id
    | Emit                                         // the compositor sends an event
    | Read                                         // the reader takes a line
    | Deliver
    | Lose                                         // the connection ends

  function Initial(): System {
    System(Fresh(), [], [], None, 0, map[], map[], map[])
  }

  ghost predicate Enabled(s: System, t: Step) {
    match t
    case Connect => !s.client.stream && s.holding.None?
    case Serve => s.client.stream && s.toServer != []
    case Emit => s.client.stream
    case Read => s.client.stream && s.toClient != [] && s.holding.None?
    case Deliver => s.holding.Some?
    case Lose => s.client.stream && s.holding.None?
    case _ => true
  }

  function Got1(d: map<Chan, seq<Reply>>, c: Chan): seq<Reply> {
    if c in d then d[c] else []
  }

  function Apply(s: System, t: Step): System
    requires Enabled(s, t)
  {
    var c := s.client;
    match t
    case Connect => s.(client := c.(stream := true, connected := true), toServer := [], toClient := [])
    case SendOnly(body, wrote) =>
      s.(client := Spent(c), issued := s.issued[c.nextId := body],
         toServer := if c.stream && wrote then s.toServer + [Msg(c.nextId, body)] else s.toServer)
    case Ask(body, wrote, leaked) =>
      if !c.stream then s
      else if !wrote then
        s.(client := Spent(c), issued := s.issued[c.nextId := body], nextChan := s.nextChan + 1,
           toServer := if leaked then s.toServer + [Msg(c.nextId, body)] else s.toServer)
      else
        s.(client := Registered(c, s.nextChan), issued := s.issued[c.nextId := body], nextChan := s.nextChan + 1,
           asked := s.asked[s.nextChan := (c.nextId, body)], toServer := s.toServer + [Msg(c.nextId, body)])
    case Serve => s.(toServer := s.toServer[1..],
      toClient := s.toClient + [Answer(s.toServer[0].id, s.toServer[0].body)])
    case Emit => s.(toClient := s.toClient + [Event])
    case Read =>
      var line := s.toClient[0];
      var rest := s.(toClient := s.toClient[1..]);
      if line.Event? then rest
      else if line.id !in c.pending then rest
      else rest.(client := Taken(c, line.id), holding := Some((c.pending[line.id], Got(line.id, line.about))))
    case Deliver =>
      var (chan, reply) := s.holding.value;
      s.(holding := None, delivered := s.delivered[chan := Got1(s.delivered, chan) + [reply]])
    case Lose =>
      s.(client := c.(stream := false, connected := false, pending := map[]), toServer := [], toClient := [],
         delivered := map ch | ch in s.delivered.Keys + c.pending.Values ::
           if ch in c.pending.Values then Got1(s.delivered, ch) + [Disconnected] else s.delivered[ch])
  }

  ghost predicate Run(states: seq<System>, steps: seq<Step>) {
    && |states| == |steps| + 1 && states[0] == Initial()
    && forall i :: 0 <= i < |steps| ==> Enabled(states[i], steps[i]) && states[i + 1] == Apply(states[i], steps[i])
  }

  // ------------------------------------------------------------- the invariant

  /** Ids are spent in order, and whatever is on the wire says what its id was spent on. */
  ghost predicate Ids(s: System) {
    && s.client.nextId >= 1
    && (forall id :: id in s.issued <==> 1 <= id < s.client.nextId)
    && (forall m :: m in s.toServer ==> m.id in s.issued && s.issued[m.id] == m.body)
    && (forall l :: l in s.toClient && l.Answer? ==> l.id in s.issued && s.issued[l.id] == l.about)
    && (forall c :: c in s.asked ==>
         c < s.nextChan && s.asked[c].0 in s.issued && s.issued[s.asked[c].0] == s.asked[c].1)
  }

  /** A waiting entry belongs to the request that made it. */
  ghost predicate Waiting(s: System) {
    && (!s.client.stream ==> s.client.pending == map[])
    && (s.client.stream <==> s.client.connected)
    && (forall id :: id in s.client.pending ==>
         s.client.pending[id] in s.asked && s.asked[s.client.pending[id]].0 == id)
  }

  predicate IsWaiting(s: System, c: Chan) {
    c in s.asked && s.asked[c].0 in s.client.pending && s.client.pending[s.asked[c].0] == c
  }

  predicate IsHeld(s: System, c: Chan) {
    s.holding.Some? && s.holding.value.0 == c
  }

  predicate Answers(s: System, c: Chan, r: Reply) {
    c in s.asked && (r.Got? ==> (r.id, r.about) == s.asked[c])
  }

  /** Every request that got to wait is still waiting, or its reply is in the reader's hand,
      or it was delivered: one of the three, once. */
  ghost predicate Once(s: System) {
    && (forall c :: c in s.asked ==>
          |Got1(s.delivered, c)| == (if IsWaiting(s, c) || IsHeld(s, c) then 0 else 1))
    && (forall c :: c in s.asked ==> !(IsWaiting(s, c) && IsHeld(s, c)))
    && (forall c :: c in s.delivered ==> c in s.asked && forall r :: r in s.delivered[c] ==> Answers(s, c, r))
    && (s.holding.Some? ==> s.holding.value.0 in s.asked && Answers(s, s.holding.value.0, s.holding.value.1))
  }

  ghost predicate Inv(s: System) {
    Ids(s) && Waiting(s) && Once(s)
  }

  lemma IdsKept(s: System, t: Step)
    requires Ids(s) && Enabled(s, t)
    ensures Ids(Apply(s, t))
  {
    var e := Apply(s, t);
    match t
    case Serve =>
      assert s.toServer[0] in s.toServer;
      assert forall m :: m in e.toServer ==> m in s.toServer;
    case Read => assert forall l :: l in e.toClient ==> l in s.toClient;
    case _ =>
  }

  lemma WaitingKept(s: System, t: Step)
    requires Inv(s) && Enabled(s, t)
    ensures Waiting(Apply(s, t))
  {
    hide Once;
  }

  /** A request that gets to wait starts with a channel nobody has used. */
  lemma AskOnce(s: System, t: Step)
    requires Inv(s) && Enabled(s, t) && t.Ask? && s.client.stream && t.wrote
    ensures Once(Apply(s, t))
  {
    var e := Apply(s, t);
    assert s.nextChan !in s.asked && s.nextChan !in s.delivered;
    assert IsWaiting(e, s.nextChan) && !IsHeld(e, s.nextChan);
    forall c | c in s.asked ensures IsWaiting(e, c) == IsWaiting(s, c) && IsHeld(e, c) == IsHeld(s, c) {
      assert s.asked[c].0 != s.client.nextId;
    }
    assert e.asked == s.asked[s.nextChan := (s.client.nextId, t.body)];
    assert e.delivered == s.delivered && e.holding == s.holding;
    hide IsWaiting, IsHeld, Ids, Waiting, Apply;
  }

  lemma ReadOnce(s: System, t: Step)
    requires Inv(s) && Enabled(s, t) && t.Read?
    ensures Once(Apply(s, t))
  {
    var e := Apply(s, t);
    var line := s.toClient[0];
    assert line in s.toClient;
    if line.Answer? && line.id in s.client.pending {
      var ch := s.client.pending[line.id];
      assert Answers(s, ch, Got(line.id, line.about));
      forall c | c in s.asked ensures IsWaiting(e, c) == (IsWaiting(s, c) && c != ch) {
      }
    }
  }

  lemma DeliverOnce(s: System, t: Step)
    requires Inv(s) && Enabled(s, t) && t.Deliver?
    ensures Once(Apply(s, t))
  {
    var e := Apply(s, t);
    forall c | c in s.asked ensures IsWaiting(e, c) == IsWaiting(s, c) && !IsHeld(e, c) {}
  }

  lemma LoseOnce(s: System, t: Step)
    requires Inv(s) && Enabled(s, t) && t.Lose?
    ensures Once(Apply(s, t))
  {
    var e := Apply(s, t);
    assert forall c :: c in s.client.pending.Values <==> IsWaiting(s, c);
    forall c | c in s.asked ensures !IsWaiting(e, c) && !IsHeld(e, c) {}
  }

  lemma StepKeepsInv(s: System, t: Step)
    requires Inv(s) && Enabled(s, t)
    ensures Inv(Apply(s, t))
  {
    IdsKept(s, t);
    WaitingKept(s, t);
    hide Ids, Waiting, Once;
    match t
    case Ask(_, wrote, _) =>
      if s.client.stream && wrote {
        hide Apply;
        AskOnce(s, t);
      } else {
        QuietOnce(s, Apply(s, t));
      }
    case Read => hide Apply; ReadOnce(s, t);
    case Deliver => hide Apply; DeliverOnce(s, t);
    case Lose => hide Apply; LoseOnce(s, t);
    case _ => QuietOnce(s, Apply(s, t));
  }

  lemma QuietOnce(s: System, e: System)
    requires Once(s) && e.client.pending == s.client.pending && e.holding == s.holding
    requires e.asked == s.asked && e.delivered == s.delivered
    ensures Once(e)
  {
  }

  lemma {:induction false} InvAlways(states: seq<System>, steps: seq<Step>, i: nat)
    requires Run(states, steps) && i < |states|
    ensures Inv(states[i])
  {
    if i > 0 {
      InvAlways(states, steps, i - 1);
      hide Inv, Apply, Enabled;
      StepKeepsInv(states[i - 1], steps[i - 1]);
    }
  }

  /** Reply correlation, over every interleaving: a channel is sent to at most once, so the
      bounded send never blocks; what it is sent of the compositor's is the answer to the very
      request that waits on it; and without a connection nobody is left waiting. */
  lemma ReplyCorrelation(states: seq<System>, steps: seq<Step>, i: nat)
    requires Run(states, steps) && i < |states|
    ensures var s := states[i];
      && (forall c :: c in s.asked ==> |Got1(s.delivered, c)| <= 1)
      && (forall c, r :: c in s.asked && r in Got1(s.delivered, c) && r.Got? ==> (r.id, r.about) == s.asked[c])
      && (s.holding.Some? ==> Got1(s.delivered, s.holding.value.0) == [])
      && (!s.client.stream ==> s.client.pending == map[])
      && (!s.client.stream && s.holding.None? ==> forall c :: c in s.asked ==> |Got1(s.delivered, c)| == 1)
  {
    InvAlways(states, steps, i);
  }

  /** No id is spent twice: what it was spent on once is what it was spent on for good. */
  lemma {:induction false} IdsNeverReused(states: seq<System>, steps: seq<Step>, i: nat, j: nat, id: Id)
    requires Run(states, steps) && i <= j < |states| && id in states[i].issued
    ensures id in states[j].issued && states[j].issued[id] == states[i].issued[id]
    ensures states[j].client.nextId > id
    decreases j
  {
    hide Inv, Apply, Enabled, Initial;
    InvAlways(states, steps, j);
    if i < j {
      IdsNeverReused(states, steps, i, j - 1, id);
      InvAlways(states, steps, j - 1);
      IssuedGrows(states[j - 1], steps[j - 1], id);
    }
    IssuedBelow(states[j], id);
  }

  lemma IssuedBelow(s: System, id: Id)
    requires Inv(s) && id in s.issued
    ensures id < s.client.nextId
  {
  }

  lemma IssuedGrows(s: System, t: Step, id: Id)
    requires Inv(s) && Enabled(s, t) && id in s.issued
    ensures id in Apply(s, t).issued && Apply(s, t).issued[id] == s.issued[id]
  {
  }

  // ---------------------------------------------------------------- what each step does

  /** The client's part of every step is what the methods of `IpcClient` do. */
  lemma ClientSteps(s: System, t: Step)
    requires Enabled(s, t)
    ensures Apply(s, t).client == match t
      case Connect => s.client.(stream := true, connected := true)
      case SendOnly(_, _) => Spent(s.client)
      case Ask(_, wrote, _) => Requested(s.client, s.nextChan, wrote)
      case Read =>
        if s.toClient[0].Answer? && s.toClient[0].id in s.client.pending then Taken(s.client, s.toClient[0].id)
        else s.client
      case Lose => s.client.(stream := false, connected := false, pending := map[])
      case _ => s.client
  {
  }

  /** A request that is written gets to wait, and is on its way with its id. */
  lemma AskWaits(s: System, body: Body, leaked: bool)
    requires Inv(s) && s.client.stream
    ensures var (id, c, e) := (s.client.nextId, s.nextChan, Apply(s, Ask(body, true, leaked)));
      && c !in s.asked && e.asked == s.asked[c := (id, body)] && IsWaiting(e, c)
      && e.toServer == s.toServer + [Msg(id, body)] && Got1(e.delivered, c) == []
  {
    hide Waiting;
    assert s.nextChan !in s.delivered;
  }

  /** The compositor answers in order, echoing id and request. */
  lemma ServeAnswers(s: System)
    requires Enabled(s, Serve)
    ensures var e := Apply(s, Serve);
      e.toServer == s.toServer[1..] && e.toClient == s.toClient + [Answer(s.toServer[0].id, s.toServer[0].body)]
  {
  }

  /** The answer to a pending request is taken in hand for the channel that waits for it; any
      other line changes nothing but the wire. */
  lemma ReadTakes(s: System)
    requires Enabled(s, Read)
    ensures var (line, e) := (s.toClient[0], Apply(s, Read));
      if line.Answer? && line.id in s.client.pending then
        && e.holding == Some((s.client.pending[line.id], Got(line.id, line.about)))
        && e.client.pending == s.client.pending - {line.id}
        && e.toClient == s.toClient[1..] && e.delivered == s.delivered
      else e == s.(toClient := s.toClient[1..])
  {
  }

  /** When the connection is lost every waiting channel is told so, and no other. */
  lemma LoseTells(s: System, c: Chan)
    requires Inv(s) && Enabled(s, Lose) && c in s.asked
    ensures Got1(Apply(s, Lose).delivered, c) == if IsWaiting(s, c) then [Disconnected] else Got1(s.delivered, c)
  {
    assert c in s.client.pending.Values <==> IsWaiting(s, c);
  }

  lemma DeliverGives(s: System)
    requires Inv(s) && Enabled(s, Deliver)
    ensures var (chan, reply) := s.holding.value;
      Got1(Apply(s, Deliver).delivered, chan) == [reply] && Apply(s, Deliver).holding.None?
  {
  }

  /** What a channel was sent stands. */
  lemma DeliveredStays(s: System, t: Step, c: Chan)
    requires Inv(s) && Enabled(s, t) && c in s.asked && |Got1(s.delivered, c)| == 1
    ensures c in Apply(s, t).asked && Got1(Apply(s, t).delivered, c) == Got1(s.delivered, c)
  {
    assert c in s.client.pending.Values <==> IsWaiting(s, c);
    hide Ids;
  }

  lemma {:induction false} StandsForGood(states: seq<System>, steps: seq<Step>, i: nat, j: nat, c: Chan)
    requires Run(states, steps) && i <= j < |states| && c in states[i].asked && |Got1(states[i].delivered, c)| == 1
    ensures c in states[j].asked && Got1(states[j].delivered, c) == Got1(states[i].delivered, c)
    decreases j
  {
    hide Inv, Apply, Enabled, Initial, Got1;
    if i < j {
      StandsForGood(states, steps, i, j - 1, c);
      InvAlways(states, steps, j - 1);
      DeliveredStays(states[j - 1], steps[j - 1], c);
    }
  }

  /** What the reader has in hand stays there until it is delivered. */
  lemma {:induction false} InHand(states: seq<System>, steps: seq<Step>, i: nat, j: nat)
    requires Run(states, steps) && i <= j < |states| && states[i].holding.Some?
    requires forall k :: i <= k < j ==> !steps[k].Deliver?
    ensures states[j].holding == states[i].holding
    decreases j
  {
    if i < j { InHand(states, steps, i, j - 1); }
  }

  /** Every answer gets through: once the answer to a pending request is read, the next delivery
      gives the channel that waits for it exactly that answer, and nothing else ever. */
  lemma AnswerGetsThrough(states: seq<System>, steps: seq<Step>, i: nat, j: nat, k: nat)
    requires Run(states, steps) && i < j < |steps| && j < k < |states|
    requires steps[i].Read? && steps[j].Deliver? && forall m :: i < m < j ==> !steps[m].Deliver?
    requires states[i].client.stream && states[i].toClient != [] && states[i].toClient[0].Answer?
    requires states[i].toClient[0].id in states[i].client.pending
    ensures var (id, c) := (states[i].toClient[0].id, states[i].client.pending[states[i].toClient[0].id]);
      && c in states[i].asked && states[i].asked[c].0 == id
      && Got1(states[k].delivered, c) == [Got(id, states[i].asked[c].1)]
  {
    var line := states[i].toClient[0];
    var c := states[i].client.pending[line.id];
    InvAlways(states, steps, i);
    assert line in states[i].toClient;
    assert states[i].asked[c] == (line.id, line.about);
    ReadTakes(states[i]);
    InHand(states, steps, i + 1, j);
    InvAlways(states, steps, j);
    AskedStays(states, steps, i, j + 1, c);
    DeliverGives(states[j]);
    hide Inv, Apply;
    StandsForGood(states, steps, j + 1, k, c);
  }

  lemma {:induction false} AskedStays(states: seq<System>, steps: seq<Step>, i: nat, j: nat, c: Chan)
    requires Run(states, steps) && i <= j < |states| && c in states[i].asked
    ensures c in states[j].asked
    decreases j
  {
    if i < j { AskedStays(states, steps, i, j - 1, c); }
  }

  /** With the wires empty and nobody in the way, a request is asked, served, read and answered. */
  lemma AskedAndAnswered(s: System, body: Body, leaked: bool)
    requires Inv(s) && s.client.stream && s.toServer == [] && s.toClient == [] && s.holding.None?
    ensures var (id, c) := (s.client.nextId, s.nextChan);
      var a := Apply(s, Ask(body, true, leaked));
      && Enabled(a, Serve) && Enabled(Apply(a, Serve), Read) && Enabled(Apply(Apply(a, Serve), Read), Deliver)
      && Got1(Apply(Apply(Apply(a, Serve), Read), Deliver).delivered, c) == [Got(id, body)]
  {
    AskWaits(s, body, leaked);
    var a := Apply(s, Ask(body, true, leaked));
    StepKeepsInv(s, Ask(body, true, leaked));
    var b := Apply(a, Serve);
    StepKeepsInv(a, Serve);
    ReadTakes(b);
    StepKeepsInv(b, Read);
    DeliverGives(Apply(b, Read));
    hide Inv;
  }

  /** What goes out on the wire, and what comes in. */
  lemma WireSteps(s: System, t: Step)
    requires Enabled(s, t)
    ensures Apply(s, t).toServer == match t
      case Connect => []
      case Lose => []
      case SendOnly(body, wrote) =>
        s.toServer + if s.client.stream && wrote then [Msg(s.client.nextId, body)] else []
      case Ask(body, wrote, leaked) =>
        s.toServer + if s.client.stream && (wrote || leaked) then [Msg(s.client.nextId, body)] else []
      case Serve => s.toServer[1..]
      case _ => s.toServer
    ensures Apply(s, t).toClient == match t
      case Connect => []
      case Lose => []
      case Serve => s.toClient + [Answer(s.toServer[0].id, s.toServer[0].body)]
      case Emit => s.toClient + [Event]
      case Read => s.toClient[1..]
      case _ => s.toClient
  {
  }
}
