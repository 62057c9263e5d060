/** The request-body limiter: a wrapper around an arbitrary ASGI application.

    An application is any function from what it has observed so far to what it does next, so
    it may swallow the limiter's exception, receive again, answer first and read later, or
    never end.  Runs are cut after `n` steps; every property holds for every `n`. */
module BodyLimit {
  import opened Bags

  type Byte = bv8

  datatype Message = Request(body: seq<Byte>, more: bool) | Disconnect

  datatype Event = Start(status: int) | Chunk(data: seq<Byte>)

  datatype Exn = TooLarge | Other(code: int)

  datatype Action = Receive | Send(event: Event) | Return | Raise(exn: Exn)

  /** What an application sees come of a receive or a send. */
  datatype Observed = Got(message: Message) | Sent | Overflow

  type App = seq<Observed> -> Action

  /** The message the server hands out at the k-th receive. */
  type Client = nat -> Message

  datatype Ending = Returned | Raised(exn: Exn)

  datatype Run = Run(log: seq<Observed>, taken: nat, sent: seq<Event>, ending: Option<Ending>)

  const BEGINNING := Run([], 0, [], None)

  // ---------------------------------------------------------------- the application on its own

  function BareStep(app: App, client: Client, r: Run): Run {
    if r.ending.Some? then r
    else
      match app(r.log)
      case Receive => r.(log := r.log + [Got(client(r.taken))], taken := r.taken + 1)
      case Send(e) => r.(log := r.log + [Sent], sent := r.sent + [e])
      case Return => r.(ending := Some(Returned))
      case Raise(x) => r.(ending := Some(Raised(x)))
  }

  function Bare(app: App, client: Client, n: nat): Run {
    if n == 0 then BEGINNING else BareStep(app, client, Bare(app, client, n - 1))
  }

  // ---------------------------------------------------------------- the application, limited

  function Size(m: Message): nat {
    if m.Request? then |m.body| else 0
  }

  datatype Guarded = Guarded(run: Run, consumed: nat, exceeded: bool, started: bool)

  function GuardStep(app: App, client: Client, limit: nat, g: Guarded): Guarded {
    var r := g.run;
    if r.ending.Some? then g
    else
      match app(r.log)
      case Receive =>
        var m := client(r.taken);
        var consumed := g.consumed + Size(m);
        if m.Request? && consumed > limit then
          Guarded(r.(log := r.log + [Overflow], taken := r.taken + 1), consumed, true, g.started)
        else g.(run := r.(log := r.log + [Got(m)], taken := r.taken + 1), consumed := consumed)
      case Send(e) =>
        if g.exceeded then g.(run := r.(log := r.log + [Sent]))
        else g.(run := r.(log := r.log + [Sent], sent := r.sent + [e]), started := g.started || e.Start?)
      case Return => g.(run := r.(ending := Some(Returned)))
      case Raise(x) => g.(run := r.(ending := Some(Raised(x))))
  }

  function Guard(app: App, client: Client, limit: nat, n: nat): Guarded {
    if n == 0 then Guarded(BEGINNING, 0, false, false)
    else GuardStep(app, client, limit, Guard(app, client, limit, n - 1))
  }

  function Refusal(status: int): seq<Event> { [Start(status), Chunk([])] }

  /** What the outside sees: the events sent, and how the call ended, if it did. */
  datatype Outer = Outer(sent: seq<Event>, ending: Option<Ending>)

  function Finish(g: Guarded): Outer {
    match g.run.ending
    case None => Outer(g.run.sent, None)
    case Some(Raised(Other(_))) => Outer(g.run.sent, g.run.ending)
    case Some(_) =>
      if !g.exceeded then Outer(g.run.sent, Some(Returned))
      else if g.started then Outer(g.run.sent, Some(Raised(TooLarge)))
      else Outer(g.run.sent + Refusal(413), Some(Returned))
  }

  // ---------------------------------------------------------------- which limit, and the header

  /** One configured prefix limit. */
  datatype Prefix = Prefix(verb: string, path: string, limit: nat)

  predicate Covers(p: Prefix, verb: string, path: string) { p.verb == verb && p.path <= path }

  /** The larger of two (length, limit) pairs. */
  function Larger(a: (nat, nat), b: (nat, nat)): (nat, nat) {
    if a.0 < b.0 || (a.0 == b.0 && a.1 < b.1) then b else a
  }

  function Longest(prefixes: seq<Prefix>, verb: string, path: string): Option<(nat, nat)> {
    if prefixes == [] then None
    else
      var rest := Longest(prefixes[1..], verb, path);
      if !Covers(prefixes[0], verb, path) then rest
      else
        var here := (|prefixes[0].path|, prefixes[0].limit);
        Some(if rest.Some? then Larger(here, rest.value) else here)
  }

  function LimitFor(exact: map<(string, string), nat>, prefixes: seq<Prefix>, verb: string, path: string): Option<nat> {
    if (verb, path) in exact then Some(exact[(verb, path)])
    else
      var best := Longest(prefixes, verb, path);
      if best.None? then None else Some(best.value.1)
  }

  predicate OnePerKey(prefixes: seq<Prefix>) {
    forall i, j | 0 <= i < |prefixes| && 0 <= j < |prefixes| ::
      prefixes[i].verb == prefixes[j].verb && prefixes[i].path == prefixes[j].path ==> i == j
  }

  lemma {:induction false} LongestIsReached(prefixes: seq<Prefix>, verb: string, path: string)
    ensures Longest(prefixes, verb, path).Some? <==> exists p :: p in prefixes && Covers(p, verb, path)
    ensures Longest(prefixes, verb, path).Some? ==>
              exists p :: p in prefixes && Covers(p, verb, path)
                  && Longest(prefixes, verb, path).value == (|p.path|, p.limit)
    ensures forall p :: p in prefixes && Covers(p, verb, path) ==> |p.path| <= Longest(prefixes, verb, path).value.0
  {
    if prefixes != [] {
      LongestIsReached(prefixes[1..], verb, path);
      assert prefixes == [prefixes[0]] + prefixes[1..];
    }
  }

  /** The prefix limit in force is that of the one longest matching prefix, whatever the order
      of the table and whatever the limits beside it. */
  lemma LimitOfLongestPrefix(
    exact: map<(string, string), nat>, prefixes: seq<Prefix>, verb: string, path: string, p: Prefix)
    requires OnePerKey(prefixes) && (verb, path) !in exact
    requires p in prefixes && p.verb == verb && p.path <= path
    requires forall q :: q in prefixes && q.verb == verb && q.path <= path ==> |q.path| <= |p.path|
    ensures LimitFor(exact, prefixes, verb, path) == Some(p.limit)
    ensures forall q :: q in prefixes && q.verb == verb && q.path <= path && |q.path| == |p.path| ==> q == p
  {
    LongestIsReached(prefixes, verb, path);
    forall q | q in prefixes && Covers(q, verb, path) && |q.path| == |p.path| ensures q == p {
      assert q.path == path[..|q.path|] && p.path == path[..|p.path|];
    }
  }

  /** An exact entry decides whatever prefixes match, and a route is unlimited exactly when neither
      an exact entry nor a prefix of its path with its method is configured. */
  lemma ExactEntryWins(exact: map<(string, string), nat>, prefixes: seq<Prefix>, verb: string, path: string)
    ensures (verb, path) in exact ==> LimitFor(exact, prefixes, verb, path) == Some(exact[(verb, path)])
    ensures LimitFor(exact, prefixes, verb, path) == None <==>
              (verb, path) !in exact && !exists p :: p in prefixes && p.verb == verb && p.path <= path
  {
    LongestIsReached(prefixes, verb, path);
  }

  /** A declared length: a number, or something that is not one. */
  type Declared = Option<int>

  datatype Admission = Proceed | Refuse(status: int)

  function Admit(lengths: seq<Declared>, limit: nat): Admission {
    if lengths == [] then Proceed
    else
      var values := if exists d :: d in lengths && d.None? then {} else set d | d in lengths :: d.value;
      if |values| != 1 then Refuse(400)
      else
        var value := lengths[0].value;
        if value < 0 then Refuse(400) else if value > limit then Refuse(413) else Proceed
  }

  /** All the declared lengths are the number `v`. */
  predicate AllSay(lengths: seq<Declared>, v: int) { forall d :: d in lengths ==> d == Some(v) }

  /** The header check, read as the rule it stands for. */
  lemma AdmitMeans(lengths: seq<Declared>, limit: nat)
    ensures Admit(lengths, limit) == Proceed <==> lengths == [] || exists v :: 0 <= v <= limit && AllSay(lengths, v)
    ensures Admit(lengths, limit) == Refuse(413) <==> lengths != [] && exists v :: limit < v && AllSay(lengths, v)
    ensures Admit(lengths, limit) == Refuse(400) <==> lengths != [] && !exists v :: 0 <= v && AllSay(lengths, v)
  {
    if lengths != [] {
      var first := lengths[0];
      assert first in lengths;
      assert forall v :: AllSay(lengths, v) ==> first == Some(v);
      if first.Some? && AllSay(lengths, first.value) {
        assert (set d | d in lengths :: d.value) == {first.value};
      } else if forall d :: d in lengths ==> d.Some? {
        var other :| other in lengths && other != first;
        var values := set d | d in lengths :: d.value;
        assert first.value in values && other.value in values;
        if |values| == 1 {
          OneElement(values, first.value, other.value);
        }
      }
    }
  }

  lemma OneElement(s: set<int>, a: int, b: int)
    requires |s| == 1 && a in s && b in s
    ensures a == b
  {
    assert |s - {a}| == 0;
    assert b !in s - {a};
  }

  /** The whole call, for at most `n` steps of the application. */
  function Call(app: App, client: Client, limit: Option<nat>, lengths: seq<Declared>, n: nat): Outer {
    if limit.None? then Outer(Bare(app, client, n).sent, Bare(app, client, n).ending)
    else
      match Admit(lengths, limit.value)
      case Refuse(status) => Outer(Refusal(status), Some(Returned))
      case Proceed => Finish(Guard(app, client, limit.value, n))
  }

  // ---------------------------------------------------------------- what reaches the application

  /** The body bytes an application has been given. */
  function Delivered(log: seq<Observed>): nat {
    if log == [] then 0
    else
      var last := log[|log| - 1];
      Delivered(log[..|log| - 1]) + if last.Got? then Size(last.message) else 0
  }

  lemma DeliveredOneMore(log: seq<Observed>, o: Observed)
    ensures Delivered(log + [o]) == Delivered(log) + if o.Got? then Size(o.message) else 0
  {
    assert (log + [o])[..|log|] == log;
  }

  ghost predicate Bounded(g: Guarded, limit: nat) {
    && Delivered(g.run.log) <= limit && Delivered(g.run.log) <= g.consumed
    && (g.exceeded <==> g.consumed > limit)
    && (g.exceeded <==> Overflow in g.run.log)
    && (!g.exceeded ==> Delivered(g.run.log) == g.consumed)
    && (g.started <==> Answered(g.run.sent))
  }

  predicate Answered(sent: seq<Event>) { exists i :: 0 <= i < |sent| && sent[i].Start? }

  lemma AnsweredOneMore(sent: seq<Event>, e: Event)
    ensures Answered(sent + [e]) <==> Answered(sent) || e.Start?
  {
    if Answered(sent) {
      var i :| 0 <= i < |sent| && sent[i].Start?;
      assert (sent + [e])[i].Start?;
    }
    assert (sent + [e])[|sent|] == e;
  }

  lemma StepBounded(app: App, client: Client, limit: nat, g: Guarded)
    requires Bounded(g, limit)
    ensures Bounded(GuardStep(app, client, limit, g), limit)
    ensures var h := GuardStep(app, client, limit, g);
            g.exceeded ==>
              h.exceeded && h.run.sent == g.run.sent && h.started == g.started
                  && Delivered(h.run.log) == Delivered(g.run.log)
  {
    var log := g.run.log;
    match app(log)
    case Receive =>
      DeliveredOneMore(log, Got(client(g.run.taken)));
      DeliveredOneMore(log, Overflow);
      assert (log + [Overflow])[|log|] == Overflow;
    case Send(e) =>
      DeliveredOneMore(log, Sent);
      AnsweredOneMore(g.run.sent, e);
    case _ =>
  }

  lemma {:induction false} StaysBounded(app: App, client: Client, limit: nat, n: nat)
    ensures Bounded(Guard(app, client, limit, n), limit)
  {
    if n != 0 {
      hide Bounded, GuardStep;
      StaysBounded(app, client, limit, n - 1);
      StepBounded(app, client, limit, Guard(app, client, limit, n - 1));
    }
  }

  /** However the application behaves, it is never given more body bytes than the limit. */
  lemma DeliveredWithinLimit(app: App, client: Client, limit: nat, n: nat)
    ensures Delivered(Guard(app, client, limit, n).run.log) <= limit
  {
    StaysBounded(app, client, limit, n);
  }

  /** From the overflow on, nothing the application sends goes out, and no later receive brings
      it body bytes, even if it swallows the exception and carries on. */
  lemma {:induction false} SilentAfterOverflow(app: App, client: Client, limit: nat, n: nat, m: nat)
    requires n <= m && Guard(app, client, limit, n).exceeded
    ensures var (g, h) := (Guard(app, client, limit, n), Guard(app, client, limit, m));
            && h.exceeded && h.run.sent == g.run.sent && h.started == g.started
            && Delivered(h.run.log) == Delivered(g.run.log)
  {
    hide Bounded, GuardStep, Delivered;
    if n < m {
      SilentAfterOverflow(app, client, limit, n, m - 1);
      StaysBounded(app, client, limit, m - 1);
      StepBounded(app, client, limit, Guard(app, client, limit, m - 1));
    }
  }

  /** The two runs agree up to the overflow, and the overflow comes when the unlimited run has
      been given more than the limit. */
  ghost predicate Alike(r: Run, g: Guarded, limit: nat) {
    && (g.exceeded <==> Delivered(r.log) > limit)
    && (!g.exceeded ==> g.run == r && g.consumed == Delivered(r.log))
  }

  lemma StepAlike(app: App, client: Client, limit: nat, r: Run, g: Guarded)
    requires Alike(r, g, limit)
    ensures Alike(BareStep(app, client, r), GuardStep(app, client, limit, g), limit)
  {
    match app(r.log)
    case Receive => DeliveredOneMore(r.log, Got(client(r.taken)));
    case Send(e) => DeliveredOneMore(r.log, Sent);
    case _ =>
  }

  lemma {:induction false} AlikeThroughout(app: App, client: Client, limit: nat, n: nat)
    ensures Alike(Bare(app, client, n), Guard(app, client, limit, n), limit)
  {
    if n != 0 {
      AlikeThroughout(app, client, limit, n - 1);
      StepAlike(app, client, limit, Bare(app, client, n - 1), Guard(app, client, limit, n - 1));
      hide Alike, BareStep, GuardStep;
    }
  }

  // ---------------------------------------------------------------- what reaches the outside

  /** If the body fits, the limiter is invisible, to the application and to the outside, except
      in one case: it takes an exception of its own class raised by the application itself for
      its own and reports a normal end. */
  lemma InvisibleWhenItFits(app: App, client: Client, limit: nat, lengths: seq<Declared>, n: nat)
    requires Admit(lengths, limit) == Proceed && Delivered(Bare(app, client, n).log) <= limit
    ensures Guard(app, client, limit, n).run == Bare(app, client, n)
    ensures var bare, outer := Call(app, client, None, lengths, n), Call(app, client, Some(limit), lengths, n);
            && outer.sent == bare.sent
            && (outer == bare <==> bare.ending != Some(Raised(TooLarge)))
  {
    AlikeThroughout(app, client, limit, n);
  }

  /** An application that raises the class itself, as a limiter nested inside this one may: alone
      it ends with the exception, behind the limiter the call ends normally with no response. */
  lemma SwallowsItsOwnClass(client: Client, limit: nat) returns (app: App)
    ensures forall n: nat :: n >= 1 ==>
              && Call(app, client, None, [], n) == Outer([], Some(Raised(TooLarge)))
              && Call(app, client, Some(limit), [], n) == Outer([], Some(Returned))
  {
    app := (log: seq<Observed>) => Raise(TooLarge);
    forall n: nat | n >= 1
      ensures Call(app, client, None, [], n) == Outer([], Some(Raised(TooLarge)))
      ensures Call(app, client, Some(limit), [], n) == Outer([], Some(Returned))
    {
      RaisesAtOnce(app, client, limit, n);
    }
  }

  lemma {:induction false} RaisesAtOnce(app: App, client: Client, limit: nat, n: nat)
    requires n >= 1 && forall log :: app(log) == Raise(TooLarge)
    ensures Bare(app, client, n) == BEGINNING.(ending := Some(Raised(TooLarge)))
    ensures Guard(app, client, limit, n) == Guarded(BEGINNING.(ending := Some(Raised(TooLarge))), 0, false, false)
  {
    if n > 1 {
      RaisesAtOnce(app, client, limit, n - 1);
    } else {
      assert Bare(app, client, 0) == BEGINNING && Guard(app, client, limit, 0) == Guarded(BEGINNING, 0, false, false);
    }
  }

  /** The limiter's own answer is added exactly when the call ended, normally or with the
      limiter's exception, after more than the limit had arrived and no response had begun. */
  lemma RefusedIff(app: App, client: Client, limit: nat, lengths: seq<Declared>, n: nat)
    requires Admit(lengths, limit) == Proceed
    ensures var g, outer := Guard(app, client, limit, n), Call(app, client, Some(limit), lengths, n);
            var ended := g.run.ending == Some(Returned) || g.run.ending == Some(Raised(TooLarge));
            var refused := g.run.sent + [Start(413), Chunk([])];
            && (outer.sent == refused <==>
                ended && Delivered(Bare(app, client, n).log) > limit && !Answered(g.run.sent))
            && (outer.sent != refused ==> outer.sent == g.run.sent)
            && (outer.sent != g.run.sent ==> outer.ending == Some(Returned) && Starts(outer.sent) == 1)
            && (ended && Delivered(Bare(app, client, n).log) > limit && Answered(g.run.sent) ==>
                  outer == Outer(g.run.sent, Some(Raised(TooLarge))))
  {
    StaysBounded(app, client, limit, n);
    AlikeThroughout(app, client, limit, n);
    var g := Guard(app, client, limit, n);
    if !Answered(g.run.sent) {
      NoStarts(g.run.sent);
      StartsAdd(g.run.sent, Refusal(413));
    }
  }

  lemma Admitted(lengths: seq<Declared>, limit: nat)
    requires lengths == [] || exists v :: 0 <= v <= limit && forall d :: d in lengths ==> d == Some(v)
    ensures Admit(lengths, limit) == Proceed
  {
    AdmitMeans(lengths, limit);
    if v :| 0 <= v <= limit && forall d :: d in lengths ==> d == Some(v) {
      assert AllSay(lengths, v);
    }
  }

  /** What a client is told of a body that is too long: if the call ends after the overflow with no
      response begun, `413` is the one response that begins. */
  lemma OverflowAnswered413(app: App, client: Client, limit: nat, lengths: seq<Declared>, n: nat, i: nat)
    requires lengths == [] || exists v :: 0 <= v <= limit && forall d :: d in lengths ==> d == Some(v)
    requires var g := Guard(app, client, limit, n);
             && (g.run.ending == Some(Returned) || g.run.ending == Some(Raised(TooLarge)))
             && Delivered(Bare(app, client, n).log) > limit
             && forall j :: 0 <= j < |g.run.sent| ==> !g.run.sent[j].Start?
    ensures var outer := Call(app, client, Some(limit), lengths, n);
            && outer.ending == Some(Returned) && |outer.sent| >= 2 && outer.sent[|outer.sent| - 2] == Start(413)
            && (i < |outer.sent| && outer.sent[i].Start? ==> i == |outer.sent| - 2)
  {
    Admitted(lengths, limit);
    var sent := Guard(app, client, limit, n).run.sent;
    assert !Answered(sent);
    hide Guard, Bare, Call, Admit, Starts;
    RefusedIff(app, client, limit, lengths, n);
    var outer := Call(app, client, Some(limit), lengths, n);
    assert outer.sent == sent + [Start(413), Chunk([])];
  }

  /** What a client is told of its declared lengths, before the application is called: a number
      over the limit is answered `413`, and anything that is not one non-negative number `400`.
      The answer is the same for every application, every body and every number of steps. */
  lemma HeaderAnswered(app: App, client: Client, limit: nat, lengths: seq<Declared>, n: nat)
    requires lengths != []
    ensures (exists v :: limit < v && forall d :: d in lengths ==> d == Some(v)) ==>
              Call(app, client, Some(limit), lengths, n) == Outer([Start(413), Chunk([])], Some(Returned))
    ensures !(exists v :: 0 <= v && forall d :: d in lengths ==> d == Some(v)) ==>
              Call(app, client, Some(limit), lengths, n) == Outer([Start(400), Chunk([])], Some(Returned))
  {
    AdmitMeans(lengths, limit);
    if v :| limit < v && forall d :: d in lengths ==> d == Some(v) {
      assert AllSay(lengths, v);
    }
    assert forall v :: AllSay(lengths, v) ==> forall d :: d in lengths ==> d == Some(v);
  }

  /** How many responses begin in a list of events. */
  function Starts(sent: seq<Event>): nat {
    if sent == [] then 0 else (if sent[0].Start? then 1 else 0) + Starts(sent[1..])
  }

  lemma {:induction false} NoStarts(sent: seq<Event>)
    requires !Answered(sent)
    ensures Starts(sent) == 0
  {
    if sent != [] {
      assert !Answered(sent[1..]) by {
        assert forall i :: 0 <= i < |sent| - 1 ==> sent[1..][i] == sent[i + 1];
      }
      NoStarts(sent[1..]);
    }
  }

  lemma {:induction false} StartsAdd(a: seq<Event>, b: seq<Event>)
    ensures Starts(a + b) == Starts(a) + Starts(b)
  {
    if a == [] {
      assert a + b == b;
    } else {
      StartsAdd(a[1..], b);
      assert (a + b)[1..] == a[1..] + b;
    }
  }

  /** What goes out on a limited route is what the bare application sends before the overflow,
      so the limiter never makes a second response of a first. */
  lemma ForwardedIsAPrefix(app: App, client: Client, limit: nat, n: nat) returns (k: nat)
    ensures k <= n && Guard(app, client, limit, n).run.sent == Bare(app, client, k).sent
    ensures k < n ==> Delivered(Bare(app, client, k).log) <= limit < Delivered(Bare(app, client, k + 1).log)
  {
    k := n;
    while k > 0 && Guard(app, client, limit, k).exceeded
      invariant k <= n
      invariant k < n ==> Guard(app, client, limit, k + 1).exceeded
      invariant k < n ==> Guard(app, client, limit, k + 1).run.sent == Guard(app, client, limit, n).run.sent
    {
      SilentAfterOverflow(app, client, limit, k, n);
      k := k - 1;
    }
    AlikeThroughout(app, client, limit, k);
    if k < n {
      AlikeThroughout(app, client, limit, k + 1);
    }
  }

  // ---------------------------------------------------------------- the middleware

  class Limiter {
    const app: App
    const client: Client
    const limit: nat
    var consumed: nat
    var exceeded: bool
    var started: bool
    var taken: nat
    var sent: seq<Event>

    constructor (app: App, client: Client, limit: nat)
      ensures this.app == app && this.client == client && this.limit == limit
      ensures consumed == 0 && !exceeded && !started && taken == 0 && sent == []
    {
      this.app, this.client, this.limit := app, client, limit;
      consumed, exceeded, started, taken, sent := 0, false, false, 0, [];
    }

    /** The receive handed to the application: a message, or the overflow exception. */
    method LimitedReceive() returns (seen: Observed)
      modifies this
      ensures taken == old(taken) + 1 && sent == old(sent) && started == old(started)
      ensures var m := client(old(taken));
              && consumed == old(consumed) + Size(m)
              && (seen == Overflow <==> m.Request? && consumed > limit)
              && (seen != Overflow ==> seen == Got(m))
      ensures exceeded == (old(exceeded) || seen == Overflow)
    {
      var message := client(taken);
      taken := taken + 1;
      if message.Request? {
        consumed := consumed + |message.body|;
        if consumed > limit {
          exceeded := true;
          return Overflow;
        }
      }
      return Got(message);
    }

    /** The send handed to the application. */
    method TrackedSend(e: Event)
      modifies this
      ensures consumed == old(consumed) && exceeded == old(exceeded) && taken == old(taken)
      ensures if exceeded then sent == old(sent) && started == old(started)
              else sent == old(sent) + [e] && started == (old(started) || e.Start?)
    {
      if exceeded {
        return;
      }
      if e.Start? {
        started := true;
      }
      sent := sent + [e];
    }

    /** Awaits the application, up to `n` steps. */
    method Await(n: nat) returns (log: seq<Observed>, ending: Option<Ending>)
      requires consumed == 0 && !exceeded && !started && taken == 0 && sent == []
      modifies this
      ensures Guarded(Run(log, taken, sent, ending), consumed, exceeded, started) == Guard(app, client, limit, n)
    {
      log, ending := [], None;
      for i := 0 to n
        invariant Guarded(Run(log, taken, sent, ending), consumed, exceeded, started) == Guard(app, client, limit, i)
      {
        if ending.None? {
          match app(log) {
            case Receive =>
              var seen := LimitedReceive();
              log := log + [seen];
            case Send(e) =>
              TrackedSend(e);
              log := log + [Sent];
            case Return =>
              ending := Some(Returned);
            case Raise(x) =>
              ending := Some(Raised(x));
          }
        }
      }
    }

    /** The call on a limited route, once the limit is known. */
    method Serve(lengths: seq<Declared>, n: nat) returns (ending: Option<Ending>)
      requires consumed == 0 && !exceeded && !started && taken == 0 && sent == []
      modifies this
      ensures Outer(sent, ending) == Call(app, client, Some(limit), lengths, n)
      ensures lengths != [] && !(exists v :: 0 <= v <= limit && forall d :: d in lengths ==> d == Some(v)) ==>
                taken == 0 && !exceeded && ending == Some(Returned) && |sent| == 2 && sent[0].Start?
    {
      var admission := Admit(lengths, limit);
      AdmitMeans(lengths, limit);
      if admission.Refuse? {
        sent := sent + Refusal(admission.status);
        return Some(Returned);
      }
      var log;
      log, ending := Await(n);
      if ending.None? || (ending.value.Raised? && ending.value.exn.Other?) {
        return;
      }
      ending := Some(Returned);
      if exceeded {
        if started {
          return Some(Raised(TooLarge));
        }
        sent := sent + Refusal(413);
      }
    }
  }
}
