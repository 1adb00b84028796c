// The ordered-delivery buffer of the ReliableOrdered channel.
module Ordered {
  import opened Config

  datatype App = App(kind: byte, payload: seq<byte>)

  datatype State = State(next: nat, buffer: map<nat, App>)

  const START := State(1, map[])

  datatype Verdict = Delivered | Stale | Buffered | Full | Invalid

  // Releases buffered messages while the next expected one is present.
  function Drain(next: nat, buffer: map<nat, App>): (State, seq<App>)
    decreases |buffer|
  {
    if next in buffer then
      var (st, out) := Drain(next + 1, buffer - {next});
      (st, [buffer[next]] + out)
    else (State(next, buffer), [])
  }

  function AcceptMessage(st: State, limit: nat, number: nat, m: App): (State, seq<App>, Verdict) {
    if number == 0 then (st, [], Invalid)
    else if number < st.next then (st, [], Stale)
    else if number == st.next then
      var (st', out) := Drain(st.next + 1, st.buffer);
      (st', [m] + out, Delivered)
    else if number in st.buffer then (st, [], Stale)
    else if |st.buffer| >= limit then (st, [], Full)
    else (st.(buffer := st.buffer[number := m]), [], Buffered)
  }

  // ----------------------------------- delivers the maximal contiguous prefix

  // The first number from `from` on that is not in the set.
  ghost function FirstGap(have: set<nat>, from: nat): nat
    decreases |have|
  {
    if from in have then FirstGap(have - {from}, from + 1) else from
  }

  ghost function Beyond(kept: map<nat, App>, n: nat): map<nat, App> { map k | k in kept && k > n :: kept[k] }

  // The messages numbered 1 .. n, in order.
  ghost function UpTo(kept: map<nat, App>, n: nat): seq<App>
    requires forall k | 1 <= k <= n :: k in kept
  {
    if n == 0 then [] else UpTo(kept, n - 1) + [kept[n]]
  }

  // The simple form of the window: the first copy of every number that was not turned away.
  ghost function Keep(kept: map<nat, App>, limit: nat, number: nat, m: App): map<nat, App> {
    var gap := FirstGap(kept.Keys, 1);
    if number == 0 || number in kept then kept
    else if number != gap && |Beyond(kept, gap)| >= limit then kept
    else kept[number := m]
  }

  lemma {:induction false} FirstGapIsFirst(have: set<nat>, from: nat)
    ensures FirstGap(have, from) >= from && FirstGap(have, from) !in have
    ensures forall k | from <= k < FirstGap(have, from) :: k in have
    decreases |have|
  {
    if from in have {
      var rest := have - {from};
      FirstGapIsFirst(rest, from + 1);
      assert FirstGap(have, from) == FirstGap(rest, from + 1);
      forall k | from <= k < FirstGap(have, from) ensures k in have {
        if k > from { assert k in rest; }
      }
    }
  }

  lemma FirstGapUnique(have: set<nat>, from: nat, gap: nat)
    requires gap >= from && gap !in have && forall k | from <= k < gap :: k in have
    ensures FirstGap(have, from) == gap
  {
    FirstGapIsFirst(have, from);
  }

  // What the window and its log are, as functions of the kept messages.
  ghost predicate Reflects(st: State, log: seq<App>, kept: map<nat, App>) {
    && 0 !in kept
    && st.next == FirstGap(kept.Keys, 1) >= 1
    && (forall k | 1 <= k <= st.next - 1 :: k in kept)
    && st.buffer == Beyond(kept, st.next)
    && log == UpTo(kept, st.next - 1)
  }

  // Draining from a number that may be present: everything contiguous goes out, nothing else does.
  lemma {:induction false} DrainIsMaximal(next: nat, buffer: map<nat, App>, kept: map<nat, App>)
    requires next >= 1 && forall k | 1 <= k < next :: k in kept
    requires buffer == map k | k in kept && k >= next :: kept[k]
    ensures var (st, out) := Drain(next, buffer);
      && st.next >= next && st.next !in kept && (forall k | 1 <= k <= st.next - 1 :: k in kept)
      && st.buffer == Beyond(kept, st.next)
      && UpTo(kept, st.next - 1) == UpTo(kept, next - 1) + out
    decreases |buffer|
  {
    if next in buffer {
      DrainIsMaximal(next + 1, buffer - {next}, kept);
      var (st, out) := Drain(next + 1, buffer - {next});
      assert UpTo(kept, next) == UpTo(kept, next - 1) + [kept[next]];
      assert UpTo(kept, next - 1) + [kept[next]] + out == UpTo(kept, next - 1) + ([kept[next]] + out);
    }
  }

  lemma {:induction false} UpToUnchanged(kept: map<nat, App>, number: nat, m: App, n: nat)
    requires n < number && forall k | 1 <= k <= n :: k in kept
    ensures UpTo(kept[number := m], n) == UpTo(kept, n)
  {
    if n > 0 { UpToUnchanged(kept, number, m, n - 1); }
  }

  lemma DeliverReflects(st: State, log: seq<App>, kept: map<nat, App>, limit: nat, m: App)
    requires Reflects(st, log, kept)
    ensures var (st', out, verdict) := AcceptMessage(st, limit, st.next, m);
      Reflects(st', log + out, kept[st.next := m])
  {
    var kept' := kept[st.next := m];
    var (drained, out) := Drain(st.next + 1, st.buffer);
    FirstGapIsFirst(kept.Keys, 1);
    assert st.buffer == map k | k in kept' && k >= st.next + 1 :: kept'[k];
    DrainIsMaximal(st.next + 1, st.buffer, kept');
    UpToUnchanged(kept, st.next, m, st.next - 1);
    assert UpTo(kept', st.next) == log + [m];
    assert log + [m] + out == log + ([m] + out);
    FirstGapUnique(kept'.Keys, 1, drained.next);
  }

  lemma BufferReflects(st: State, log: seq<App>, kept: map<nat, App>, number: nat, m: App)
    requires Reflects(st, log, kept) && number > st.next && number !in st.buffer
    ensures Reflects(st.(buffer := st.buffer[number := m]), log, kept[number := m])
  {
    FirstGapIsFirst(kept.Keys, 1);
    FirstGapUnique(kept[number := m].Keys, 1, st.next);
    UpToUnchanged(kept, number, m, st.next - 1);
    assert Beyond(kept[number := m], st.next) == Beyond(kept, st.next)[number := m];
  }

  // accept() follows the simple form, and its verdict tells what happened to the number.
  lemma AcceptReflects(st: State, log: seq<App>, kept: map<nat, App>, limit: nat, number: nat, m: App)
    requires Reflects(st, log, kept)
    ensures var (st', out, verdict) := AcceptMessage(st, limit, number, m);
      var kept' := Keep(kept, limit, number, m);
      && Reflects(st', log + out, kept')
      && (verdict == Stale <==> number in kept)
      && (verdict.Delivered? || verdict.Buffered? <==> number in kept' && number !in kept)
      && (|st.buffer| <= limit ==> |st'.buffer| <= limit)
  {
    FirstGapIsFirst(kept.Keys, 1);
    assert log + [] == log;
    if number == st.next {
      DeliverReflects(st, log, kept, limit, m);
      DrainShrinks(st.next + 1, st.buffer);
    } else if number > st.next && number !in st.buffer && |st.buffer| < limit {
      BufferReflects(st, log, kept, number, m);
    }
  }

  lemma {:induction false} DrainShrinks(next: nat, buffer: map<nat, App>)
    ensures |Drain(next, buffer).0.buffer| <= |buffer|
    decreases |buffer|
  {
    if next in buffer { DrainShrinks(next + 1, buffer - {next}); }
  }

  datatype Arrival = Arrival(number: nat, message: App)

  function Run(limit: nat, arrivals: seq<Arrival>): (State, seq<App>) {
    if arrivals == [] then (START, [])
    else
      var (st, log) := Run(limit, arrivals[..|arrivals| - 1]);
      var last := arrivals[|arrivals| - 1];
      var (st', out, _) := AcceptMessage(st, limit, last.number, last.message);
      (st', log + out)
  }

  ghost function RunKeep(limit: nat, arrivals: seq<Arrival>): map<nat, App> {
    if arrivals == [] then map[]
    else
      var last := arrivals[|arrivals| - 1];
      Keep(RunKeep(limit, arrivals[..|arrivals| - 1]), limit, last.number, last.message)
  }

  // After any arrivals: the log is 1 .. next-1 in order, the buffer is what was kept beyond it, next is
  // missing, and the buffer respects its limit.
  lemma {:induction false} RunReflects(limit: nat, arrivals: seq<Arrival>)
    ensures Reflects(Run(limit, arrivals).0, Run(limit, arrivals).1, RunKeep(limit, arrivals))
    ensures |Run(limit, arrivals).0.buffer| <= limit
  {
    if arrivals == [] {
      FirstGapUnique({}, 1, 1);
    } else {
      var before := arrivals[..|arrivals| - 1];
      var last := arrivals[|arrivals| - 1];
      RunReflects(limit, before);
      var (st, log) := Run(limit, before);
      AcceptReflects(st, log, RunKeep(limit, before), limit, last.number, last.message);
    }
  }

  // -------------------------------------------- against the sender's numbering

  // Everything buffered is the sender's message of that number.
  ghost predicate Tracks(st: State, sent: seq<App>) {
    && 1 <= st.next <= |sent| + 1
    && forall k | k in st.buffer :: st.next < k <= |sent| && st.buffer[k] == sent[k - 1]
  }

  lemma {:induction false} DrainTracks(next: nat, buffer: map<nat, App>, sent: seq<App>)
    requires 1 <= next <= |sent| + 1
    requires forall k | k in buffer :: next <= k <= |sent| && buffer[k] == sent[k - 1]
    ensures var (st, out) := Drain(next, buffer);
      Tracks(st, sent) && st.next >= next && out == sent[next - 1..st.next - 1]
    decreases |buffer|
  {
    if next in buffer {
      var rest := buffer - {next};
      DrainTracks(next + 1, rest, sent);
      var (st, out) := Drain(next + 1, rest);
      assert Drain(next, buffer) == (st, [buffer[next]] + out);
      Consed(sent, next - 1, st.next - 1);
    }
  }

  lemma Consed(s: seq<App>, a: nat, b: nat)
    requires a < b <= |s|
    ensures s[a..b] == [s[a]] + s[a + 1..b]
  {
  }

  // A message the sender numbered moves the log along the sender's log, by exactly what is released.
  lemma AcceptTracks(st: State, sent: seq<App>, limit: nat, number: nat)
    requires Tracks(st, sent) && 1 <= number <= |sent|
    ensures var (st', out, verdict) := AcceptMessage(st, limit, number, sent[number - 1]);
      Tracks(st', sent) && st'.next >= st.next && out == sent[st.next - 1..st'.next - 1] && !verdict.Invalid?
  {
    if number == st.next {
      DrainTracks(st.next + 1, st.buffer, sent);
      var st' := Drain(st.next + 1, st.buffer).0;
      Consed(sent, st.next - 1, st'.next - 1);
    }
  }

  // ------------------------------------------------------- delivered or kept, exactly

  // The number was delivered or is waiting in the buffer.
  predicate Held(st: State, number: nat) { number < st.next || number in st.buffer }

  lemma {:induction false} DrainHeld(next: nat, buffer: map<nat, App>, k: nat)
    ensures Held(Drain(next, buffer).0, k) <==> k < next || k in buffer
    decreases |buffer|
  {
    if next in buffer { DrainHeld(next + 1, buffer - {next}, k); }
  }

  // accept() holds on to what it held, and to the new number unless the buffer is full when it is not its turn.
  lemma HeldAfter(st: State, limit: nat, number: nat, m: App, k: nat)
    requires number > 0
    ensures var st' := AcceptMessage(st, limit, number, m).0;
      Held(st', k) <==> Held(st, k) || (k == number && (number == st.next || |st.buffer| < limit))
  {
    if number == st.next { DrainHeld(st.next + 1, st.buffer, k); }
  }

  // ----------------------------------------------------------------------- class

  class OrderedReceiveWindow {
    var nextExpected: nat
    var maxBuffered: nat
    var buffer: map<nat, App>

    ghost function Value(): State reads this { State(nextExpected, buffer) }

    constructor (maxBuffered: nat)
      ensures Value() == START && this.maxBuffered == maxBuffered
    {
      this.nextExpected, this.maxBuffered, this.buffer := 1, maxBuffered, map[];
    }

    // `delivered` is what the deliver callback was given, in order.
    method Accept(number: nat, kind: byte, payload: seq<byte>) returns (delivered: seq<App>, verdict: Verdict)
      modifies `nextExpected, `buffer
      ensures (Value(), delivered, verdict) == AcceptMessage(old(Value()), maxBuffered, number, App(kind, payload))
    {
      delivered := [];
      if number == 0 { return [], Invalid; }
      if number < nextExpected { return [], Stale; }
      if number == nextExpected {
        delivered := [App(kind, payload)];
        nextExpected := nextExpected + 1;
        ghost var whole := Drain(nextExpected, buffer);
        while nextExpected in buffer
          invariant Drain(nextExpected, buffer).0 == whole.0
          invariant delivered + Drain(nextExpected, buffer).1 == [App(kind, payload)] + whole.1
          decreases |buffer|
        {
          delivered := delivered + [buffer[nextExpected]];
          buffer := buffer - {nextExpected};
          nextExpected := nextExpected + 1;
        }
        assert Drain(nextExpected, buffer) == (Value(), []);
        assert delivered + [] == delivered;
        return delivered, Delivered;
      }
      if number in buffer { return [], Stale; }
      if |buffer| >= maxBuffered { return [], Full; }
      buffer := buffer[number := App(kind, payload)];
      return [], Buffered;
    }

    method Clear()
      modifies `nextExpected, `buffer
      ensures Value() == START
    {
      nextExpected, buffer := 1, map[];
    }
  }
}
