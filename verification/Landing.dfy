// What the receiver has delivered, once every unit lands at most once.
module Landing {
  import opened Config
  import opened Fragments
  import opened Outbound
  import opened Inbound
  import R = Reassembly
  import O = Ordered

  // ------------------------------------------------------------------ reading the log

  ghost function OrderedPart(log: seq<Delivery>): seq<O.App> {
    if log == [] then []
    else
      var last := log[|log| - 1];
      OrderedPart(log[..|log| - 1]) + if last.channel.ReliableOrdered? then [O.App(last.kind, last.payload)] else []
  }

  ghost function DirectPart(log: seq<Delivery>): seq<Delivery> {
    if log == [] then []
    else
      var last := log[|log| - 1];
      DirectPart(log[..|log| - 1]) + if last.channel.ReliableOrdered? then [] else [last]
  }

  lemma PartsOfOne(log: seq<Delivery>, d: Delivery)
    ensures OrderedPart(log + [d])
         == OrderedPart(log) + if d.channel.ReliableOrdered? then [O.App(d.kind, d.payload)] else []
    ensures DirectPart(log + [d]) == DirectPart(log) + if d.channel.ReliableOrdered? then [] else [d]
  {
    assert (log + [d])[..|log|] == log;
  }

  lemma OrderedDeliveriesSplit(apps: seq<O.App>, n: nat)
    requires |apps| == n + 1
    ensures OrderedDeliveries(apps)
         == OrderedDeliveries(apps[..n]) + [Delivery(ReliableOrdered, apps[n].kind, apps[n].payload)]
  {
  }

  lemma {:induction false} PartsOfOrdered(log: seq<Delivery>, apps: seq<O.App>, log': seq<Delivery>)
    requires log' == log + OrderedDeliveries(apps)
    ensures OrderedPart(log') == OrderedPart(log) + apps && DirectPart(log') == DirectPart(log)
    decreases |apps|
  {
    if apps == [] {
      assert log' == log;
    } else {
      var n := |apps| - 1;
      var before := log + OrderedDeliveries(apps[..n]);
      PartsOfOrdered(log, apps[..n], before);
      OrderedDeliveriesSplit(apps, n);
      var d := Delivery(ReliableOrdered, apps[n].kind, apps[n].payload);
      assert log' == before + [d];
      PartsOfOne(before, d);
      assert apps == apps[..n] + [apps[n]];
    }
  }

  // -------------------------------------------------------------------- the invariant

  // The units that landed, how the reassembler sees them, and the send behind each direct delivery.
  datatype Tally = Tally(arrived: set<Unit>, parts: map<nat, R.Partial>, origins: seq<nat>)

  ghost predicate AllArrived(sends: seq<Record>, arrived: set<Unit>, j: nat)
    requires j < |sends|
  {
    forall i: nat | i < sends[j].Units() :: Unit(j, i) in arrived
  }

  ghost predicate AllNumbered(sends: seq<Record>) { forall j | 0 <= j < |sends| :: Numbered(sends, j) }

  // Fragments the reassembler holds are fragments that arrived.
  ghost predicate PartsArrived(sends: seq<Record>, t: Tally) {
    forall j, i | 0 <= j < |sends| && sends[j].Fragmented() && sends[j].fragmentId in t.parts &&
                  i in t.parts[sends[j].fragmentId].have :: Unit(j, i) in t.arrived
  }

  // The ordered log is a prefix of what was sent on the ordered channel.
  ghost predicate OrderedOk(sends: seq<Record>, r: Receiver, log: seq<Delivery>) {
    && O.Tracks(r.ordered, OrderedOf(sends))
    && OrderedPart(log) == OrderedOf(sends)[..r.ordered.next - 1]
  }

  // An ordered message that was delivered or is buffered arrived in full.
  ghost predicate HeldArrived(sends: seq<Record>, st: O.State, t: Tally) {
    forall j | 0 <= j < |sends| && sends[j].channel.ReliableOrdered? && O.Held(st, sends[j].number) ::
      AllArrived(sends, t.arrived, j)
  }

  ghost predicate OriginOk(sends: seq<Record>, t: Tally, j: nat, d: Delivery) {
    && j < |sends| && !sends[j].channel.ReliableOrdered?
    && d == Delivery(sends[j].channel, sends[j].kind, sends[j].payload)
    && AllArrived(sends, t.arrived, j)
  }

  // Every other delivery is of a message that was sent, and no message is delivered twice.
  ghost predicate DirectOk(sends: seq<Record>, log: seq<Delivery>, t: Tally) {
    && |t.origins| == |DirectPart(log)|
    && (forall k | 0 <= k < |t.origins| :: OriginOk(sends, t, t.origins[k], DirectPart(log)[k]))
    && (forall k, l | 0 <= k < l < |t.origins| :: t.origins[k] != t.origins[l])
  }

  // Sequenced deliveries have strictly increasing numbers.
  ghost predicate SequencedOk(sends: seq<Record>, r: Receiver, origins: seq<nat>) {
    && (forall k | 0 <= k < |origins| && Sequenced(sends, origins[k]) :: sends[origins[k]].number <= r.latest)
    && (forall k, l | 0 <= k < l < |origins| && Sequenced(sends, origins[k]) && Sequenced(sends, origins[l]) ::
          sends[origins[k]].number < sends[origins[l]].number)
  }

  ghost predicate Sequenced(sends: seq<Record>, j: nat) { j < |sends| && sends[j].channel.SequencedUnreliable? }

  ghost predicate LandOk(sends: seq<Record>, r: Receiver, log: seq<Delivery>, t: Tally) {
    && AllNumbered(sends)
    && R.Mirrors(r.reassembly, t.parts, Originals(sends)) && PartsArrived(sends, t)
    && DeliveryOk(sends, r, log, t)
  }

  ghost predicate DeliveryOk(sends: seq<Record>, r: Receiver, log: seq<Delivery>, t: Tally) {
    && OrderedOk(sends, r, log) && HeldArrived(sends, r.ordered, t)
    && DirectOk(sends, log, t) && SequencedOk(sends, r, t.origins)
  }

  // ---------------------------------------------------------------- handing a message over

  // The tally once message j is handed to deliver_application_message.
  ghost function Handed(sends: seq<Record>, r: Receiver, t: Tally, j: nat): Tally
    requires j < |sends|
  {
    var rec := sends[j];
    if rec.channel.ReliableOrdered? || (rec.channel.SequencedUnreliable? && rec.number <= r.latest) then t
    else t.(origins := t.origins + [j])
  }

  lemma DirectExtends(sends: seq<Record>, log: seq<Delivery>, t: Tally, j: nat, d: Delivery)
    requires DirectOk(sends, log, t) && OriginOk(sends, t, j, d) && j !in t.origins
    ensures DirectOk(sends, log + [d], t.(origins := t.origins + [j]))
  {
    PartsOfOne(log, d);
    var t' := t.(origins := t.origins + [j]);
    forall k | 0 <= k < |t'.origins| ensures OriginOk(sends, t', t'.origins[k], DirectPart(log + [d])[k]) {
      if k < |t.origins| { assert OriginOk(sends, t, t.origins[k], DirectPart(log)[k]); }
    }
  }

  lemma OrderedReleases(st: O.State, sent: seq<O.App>, limit: nat, number: nat, m: O.App)
    requires O.Tracks(st, sent) && 1 <= number <= |sent| && m == sent[number - 1]
    ensures var (st', apps, verdict) := O.AcceptMessage(st, limit, number, m);
      O.Tracks(st', sent) && sent[..st.next - 1] + apps == sent[..st'.next - 1] && !verdict.Invalid?
  {
    O.AcceptTracks(st, sent, limit, number);
    var st' := O.AcceptMessage(st, limit, number, m).0;
    assert sent[..st.next - 1] + sent[st.next - 1..st'.next - 1] == sent[..st'.next - 1];
  }

  lemma OrderedExtends(limits: Limits, sends: seq<Record>, r: Receiver, log: seq<Delivery>, j: nat, st: O.State,
                       apps: seq<O.App>)
    requires AllNumbered(sends) && OrderedOk(sends, r, log) && j < |sends| && sends[j].channel.ReliableOrdered?
    requires var m := O.App(sends[j].kind, sends[j].payload);
      var (st', out, _) := O.AcceptMessage(r.ordered, limits.orderedWindow, sends[j].number, m);
      st == st' && apps == out
    ensures OrderedOk(sends, r.(ordered := st), log + OrderedDeliveries(apps))
    ensures DirectPart(log + OrderedDeliveries(apps)) == DirectPart(log) && sends[j].number > 0
  {
    assert Numbered(sends, j);
    OrderedAt(sends, j);
    var m := O.App(sends[j].kind, sends[j].payload);
    OrderedReleases(r.ordered, OrderedOf(sends), limits.orderedWindow, sends[j].number, m);
    PartsOfOrdered(log, apps, log + OrderedDeliveries(apps));
  }

  lemma {:induction false} OrderedCountGrows(sends: seq<Record>, j: nat)
    requires j < |sends| && sends[j].channel.ReliableOrdered?
    ensures |OrderedOf(sends[..j])| < |OrderedOf(sends)|
  {
    var n := |sends| - 1;
    if j < n {
      assert sends[..n][..j] == sends[..j];
      OrderedCountGrows(sends[..n], j);
    }
  }

  lemma OrderedNumbersDiffer(sends: seq<Record>, i: nat, j: nat)
    requires AllNumbered(sends) && i < j < |sends|
    requires sends[i].channel.ReliableOrdered? && sends[j].channel.ReliableOrdered?
    ensures sends[i].number < sends[j].number
  {
    assert Numbered(sends, i) && Numbered(sends, j) && sends[..j][..i] == sends[..i];
    OrderedCountGrows(sends[..j], i);
  }

  lemma HeldExtends(sends: seq<Record>, st: O.State, t: Tally, limit: nat, j: nat, m: O.App)
    requires AllNumbered(sends) && HeldArrived(sends, st, t) && j < |sends| && AllArrived(sends, t.arrived, j)
    requires sends[j].channel.ReliableOrdered? && sends[j].number > 0
    ensures HeldArrived(sends, O.AcceptMessage(st, limit, sends[j].number, m).0, t)
  {
    var st' := O.AcceptMessage(st, limit, sends[j].number, m).0;
    forall k | 0 <= k < |sends| && sends[k].channel.ReliableOrdered? && O.Held(st', sends[k].number)
      ensures AllArrived(sends, t.arrived, k)
    {
      O.HeldAfter(st, limit, sends[j].number, m, sends[k].number);
      if k < j { OrderedNumbersDiffer(sends, k, j); } else if j < k { OrderedNumbersDiffer(sends, j, k); }
    }
  }

  lemma DeliverKeeps(limits: Limits, sends: seq<Record>, r: Receiver, log: seq<Delivery>, t: Tally, j: nat)
    requires AllNumbered(sends) && DeliveryOk(sends, r, log, t)
    requires j < |sends| && j !in t.origins && AllArrived(sends, t.arrived, j)
    ensures var rec := sends[j];
      var e := Deliver(limits, r, Delivery(rec.channel, rec.kind, rec.payload), rec.number);
      e.status.Ok? && e.r.reassembly == r.reassembly && DeliveryOk(sends, e.r, log + e.out, Handed(sends, r, t, j))
  {
    var rec := sends[j];
    var d := Delivery(rec.channel, rec.kind, rec.payload);
    assert Numbered(sends, j);
    if rec.channel.ReliableOrdered? {
      var (st, apps, _) := O.AcceptMessage(r.ordered, limits.orderedWindow, rec.number, O.App(rec.kind, rec.payload));
      OrderedExtends(limits, sends, r, log, j, st, apps);
      HeldExtends(sends, r.ordered, t, limits.orderedWindow, j, O.App(rec.kind, rec.payload));
    } else if rec.channel.SequencedUnreliable? && rec.number <= r.latest {
      assert log + [] == log;
    } else {
      PartsOfOne(log, d);
      DirectExtends(sends, log, t, j, d);
    }
  }

  // -------------------------------------------------------------------- landing a unit

  ghost function Have(parts: map<nat, R.Partial>, id: nat): set<nat> { if id in parts then parts[id].have else {} }

  // Collecting a fragment touches one message only, and completes it only when every index is there.
  ghost predicate Local(parts: map<nat, R.Partial>, m: R.Whole, index: nat, parts': map<nat, R.Partial>,
                        outcome: R.Outcome) {
    && (forall k | k in parts' && k != m.messageId :: k in parts && parts'[k] == parts[k])
    && (m.messageId in parts' ==> parts'[m.messageId].have <= Have(parts, m.messageId) + {index})
    && (outcome.Completed? ==> outcome.message == m && R.HasAll(Have(parts, m.messageId) + {index}, m))
    && !outcome.Refused?
  }

  lemma GatherIsLocal(parts: map<nat, R.Partial>, m: R.Whole, now: nat, index: nat, deliver: R.Whole -> bool)
    requires deliver(m)
    ensures var (parts', outcome) := R.Gather(parts, m, Have(parts, m.messageId), now, index, deliver);
      Local(parts, m, index, parts', outcome) && !outcome.Rejected?
  {
  }

  lemma CollectIsLocal(cfg: FragmentationConfig, originals: map<nat, R.Whole>, parts: map<nat, R.Partial>, now: nat,
                       id: nat, index: nat, deliver: R.Whole -> bool)
    requires R.KnownMessages(originals) && id in originals && parts.Keys <= originals.Keys && deliver(originals[id])
    ensures var (parts', outcome) := R.Collect(cfg, originals, parts, now, id, index, deliver);
      && Local(parts, originals[id], index, parts', outcome)
      && (outcome.Rejected? ==> outcome.error == TooLarge || outcome.error == QueueFull || !cfg.enabled)
  {
    GatherIsLocal(parts, originals[id], now, index, deliver);
  }

  // What fragment i of a message does once the reassembler takes it.
  ghost function Accepted(limits: Limits, r: Receiver, now: nat, m: R.Whole, i: nat): Effect
    requires R.Consistent(r.reassembly) && R.Splittable(m) && i < Count(|m.payload|)
  {
    var (st, outcome) := R.AcceptFragment(limits.fragmentation, r.reassembly, now, R.FragmentOf(m, i), Deliverable());
    Conclude(limits, r.(reassembly := st), outcome)
  }

  // The tally once the reassembler gave its verdict on a fragment of message j.
  ghost function Concluded(sends: seq<Record>, r: Receiver, t: Tally, j: nat, outcome: R.Outcome): Tally
    requires j < |sends|
  {
    if outcome.Completed? then Handed(sends, r, t, j) else t
  }

  lemma ArrivalKeeps(sends: seq<Record>, r: Receiver, log: seq<Delivery>, t: Tally, t': Tally)
    requires DeliveryOk(sends, r, log, t) && t.arrived <= t'.arrived && t'.origins == t.origins
    ensures DeliveryOk(sends, r, log, t')
  {
    forall k | 0 <= k < |t.origins| ensures OriginOk(sends, t', t.origins[k], DirectPart(log)[k]) {
      assert OriginOk(sends, t, t.origins[k], DirectPart(log)[k]);
    }
  }

  lemma NotYetAnOrigin(sends: seq<Record>, log: seq<Delivery>, t: Tally, j: nat, i: nat)
    requires DirectOk(sends, log, t) && j < |sends| && i < sends[j].Units() && Unit(j, i) !in t.arrived
    ensures j !in t.origins
  {
  }

  lemma PartsStayArrived(sends: seq<Record>, t: Tally, j: nat, i: nat, parts': map<nat, R.Partial>)
    requires AllNumbered(sends) && PartsArrived(sends, t) && j < |sends| && sends[j].Fragmented()
    requires forall k | k in parts' && k != sends[j].fragmentId :: k in t.parts && parts'[k] == t.parts[k]
    requires sends[j].fragmentId in parts' ==>
      parts'[sends[j].fragmentId].have <= Have(t.parts, sends[j].fragmentId) + {i}
    ensures PartsArrived(sends, Tally(t.arrived + {Unit(j, i)}, parts', t.origins))
  {
    var t' := Tally(t.arrived + {Unit(j, i)}, parts', t.origins);
    forall k, l | 0 <= k < |sends| && sends[k].Fragmented() && sends[k].fragmentId in t'.parts &&
                  l in t'.parts[sends[k].fragmentId].have ensures Unit(k, l) in t'.arrived {
      if k < j { FragmentIdsDiffer(sends, k, j); } else if j < k { FragmentIdsDiffer(sends, j, k); }
    }
  }

  // All the indices of a fragmented message, with the one that just came.
  lemma CompletionArrives(sends: seq<Record>, t: Tally, j: nat, i: nat)
    requires PartsArrived(sends, t) && j < |sends| && sends[j].Fragmented()
    requires R.HasAll(Have(t.parts, sends[j].fragmentId) + {i}, sends[j].AsWhole())
    ensures AllArrived(sends, t.arrived + {Unit(j, i)}, j)
  {
    var have := Have(t.parts, sends[j].fragmentId) + {i};
    forall l: nat | l < sends[j].Units() ensures Unit(j, l) in t.arrived + {Unit(j, i)} { assert l in have; }
  }

  // What is left alone when a unit lands.
  ghost predicate SameWindows(r: Receiver, r': Receiver) {
    r'.packets == r.packets && r'.reliableIds == r.reliableIds && r'.orderedIds == r.orderedIds
  }

  lemma InlineLands(limits: Limits, sends: seq<Record>, r: Receiver, log: seq<Delivery>, t: Tally, j: nat, t': Tally)
    requires LandOk(sends, r, log, t) && j < |sends| && !sends[j].Fragmented() && Unit(j, 0) !in t.arrived
    requires t' == Handed(sends, r, t.(arrived := t.arrived + {Unit(j, 0)}), j)
    ensures var e := Deliver(limits, r, Delivery(sends[j].channel, sends[j].kind, sends[j].payload), sends[j].number);
      LandOk(sends, e.r, log + e.out, t') && e.status.Ok?
  {
    var t1 := t.(arrived := t.arrived + {Unit(j, 0)});
    NotYetAnOrigin(sends, log, t, j, 0);
    ArrivalKeeps(sends, r, log, t, t1);
    DeliverKeeps(limits, sends, r, log, t1, j);
  }

  // The whole message handed over when fragment i completed message j.
  lemma CompletionLands(limits: Limits, sends: seq<Record>, r: Receiver, log: seq<Delivery>, t: Tally, j: nat, i: nat,
                        st: R.State, parts': map<nat, R.Partial>, t': Tally)
    requires LandOk(sends, r, log, t) && j < |sends| && sends[j].Fragmented()
    requires i < sends[j].Units() && Unit(j, i) !in t.arrived
    requires R.Mirrors(st, parts', Originals(sends))
    requires Local(t.parts, sends[j].AsWhole(), i, parts', R.Completed(sends[j].AsWhole()))
    requires t' == Handed(sends, r, Tally(t.arrived + {Unit(j, i)}, parts', t.origins), j)
    ensures var e := Deliver(limits, r.(reassembly := st), DeliveryOf(sends[j].AsWhole()), sends[j].number);
      LandOk(sends, e.r, log + e.out, t') && e.status.Ok?
  {
    var r1, t1 := r.(reassembly := st), Tally(t.arrived + {Unit(j, i)}, parts', t.origins);
    CompletionReady(sends, r, log, t, j, i, st, parts', t1);
    DeliverKeeps(limits, sends, r1, log, t1, j);
  }

  lemma CompletionReady(sends: seq<Record>, r: Receiver, log: seq<Delivery>, t: Tally, j: nat, i: nat, st: R.State,
                        parts': map<nat, R.Partial>, t1: Tally)
    requires LandOk(sends, r, log, t) && j < |sends| && sends[j].Fragmented()
    requires i < sends[j].Units() && Unit(j, i) !in t.arrived
    requires Local(t.parts, sends[j].AsWhole(), i, parts', R.Completed(sends[j].AsWhole()))
    requires t1 == Tally(t.arrived + {Unit(j, i)}, parts', t.origins)
    ensures DeliveryOk(sends, r.(reassembly := st), log, t1) && PartsArrived(sends, t1)
    ensures AllArrived(sends, t1.arrived, j) && j !in t1.origins
  {
    NotYetAnOrigin(sends, log, t, j, i);
    CompletionArrives(sends, t, j, i);
    PartsStayArrived(sends, t, j, i, parts');
    ArrivalKeeps(sends, r, log, t, t1);
  }

  // Any other outcome only moves the reassembler.
  lemma StoringLands(sends: seq<Record>, r: Receiver, log: seq<Delivery>, t: Tally, j: nat, i: nat, st: R.State,
                     parts': map<nat, R.Partial>, outcome: R.Outcome)
    requires LandOk(sends, r, log, t) && j < |sends| && sends[j].Fragmented()
    requires R.Mirrors(st, parts', Originals(sends)) && Local(t.parts, sends[j].AsWhole(), i, parts', outcome)
    ensures LandOk(sends, r.(reassembly := st), log + [], Tally(t.arrived + {Unit(j, i)}, parts', t.origins))
  {
    var r1, t1 := r.(reassembly := st), Tally(t.arrived + {Unit(j, i)}, parts', t.origins);
    assert log + [] == log;
    PartsStayArrived(sends, t, j, i, parts');
    ArrivalKeeps(sends, r, log, t, t1);
    assert DeliveryOk(sends, r1, log, t1);
  }

  lemma ConclusionLands(limits: Limits, sends: seq<Record>, r: Receiver, log: seq<Delivery>, t: Tally, j: nat, i: nat,
                        st: R.State, parts': map<nat, R.Partial>, outcome: R.Outcome, t': Tally)
    requires LandOk(sends, r, log, t) && j < |sends| && sends[j].Fragmented()
    requires i < sends[j].Units() && Unit(j, i) !in t.arrived
    requires R.Mirrors(st, parts', Originals(sends)) && Local(t.parts, sends[j].AsWhole(), i, parts', outcome)
    requires outcome.Rejected? ==>
      outcome.error == TooLarge || outcome.error == QueueFull || !limits.fragmentation.enabled
    requires t' == Concluded(sends, r, Tally(t.arrived + {Unit(j, i)}, parts', t.origins), j, outcome)
    ensures var e := Conclude(limits, r.(reassembly := st), outcome);
      LandOk(sends, e.r, log + e.out, t') && (e.status.Err? ==> !limits.fragmentation.enabled)
  {
    if outcome.Completed? {
      CompletionLands(limits, sends, r, log, t, j, i, st, parts', t');
    } else {
      StoringLands(sends, r, log, t, j, i, st, parts', outcome);
    }
  }

  lemma FragmentLands(limits: Limits, sends: seq<Record>, r: Receiver, log: seq<Delivery>, t: Tally, now: nat, j: nat,
                      i: nat)
    returns (t': Tally)
    requires LandOk(sends, r, log, t) && j < |sends| && sends[j].WellFormed() && sends[j].Fragmented()
    requires i < sends[j].Units() && Unit(j, i) !in t.arrived
    requires sends[j].fragmentId in Originals(sends) && Originals(sends)[sends[j].fragmentId] == sends[j].AsWhole()
    ensures t'.arrived == t.arrived + {Unit(j, i)}
    ensures var e := Accepted(limits, r, now, sends[j].AsWhole(), i);
      LandOk(sends, e.r, log + e.out, t') && (e.status.Err? ==> !limits.fragmentation.enabled)
  {
    var id, originals := sends[j].fragmentId, Originals(sends);
    R.AcceptRefinesCollect(limits.fragmentation, r.reassembly, t.parts, originals, now, id, i, Deliverable());
    CollectIsLocal(limits.fragmentation, originals, t.parts, now, id, i, Deliverable());
    var (parts', outcome) := R.Collect(limits.fragmentation, originals, t.parts, now, id, i, Deliverable());
    var f := R.FragmentOf(sends[j].AsWhole(), i);
    var st := R.AcceptFragment(limits.fragmentation, r.reassembly, now, f, Deliverable()).0;
    t' := Concluded(sends, r, Tally(t.arrived + {Unit(j, i)}, parts', t.origins), j, outcome);
    ConclusionLands(limits, sends, r, log, t, j, i, st, parts', outcome, t');
  }

  lemma FragmentUnitLands(limits: Limits, sends: seq<Record>, r: Receiver, log: seq<Delivery>, t: Tally, now: nat,
                          j: nat, i: nat, roomy: bool, e: Effect)
    returns (t': Tally)
    requires LandOk(sends, r, log, t) && j < |sends| && sends[j].WellFormed() && sends[j].Fragmented()
    requires i < sends[j].Units() && Unit(j, i) !in t.arrived
    requires sends[j].fragmentId in Originals(sends) && Originals(sends)[sends[j].fragmentId] == sends[j].AsWhole()
    requires e == HandleFragment(limits, r, now, R.FragmentOf(sends[j].AsWhole(), i), roomy)
    ensures LandOk(sends, e.r, log + e.out, t') && t'.arrived == t.arrived + {Unit(j, i)}
    ensures e.status.Err? ==> !limits.fragmentation.enabled
  {
    if sends[j].fragmentId !in t.parts && !roomy {
      t' := t.(arrived := t.arrived + {Unit(j, i)});
      StoringLands(sends, r, log, t, j, i, r.reassembly, t.parts, R.Stored);
    } else {
      t' := FragmentLands(limits, sends, r, log, t, now, j, i);
    }
  }

  lemma IsOriginal(sends: seq<Record>, j: nat)
    requires AllNumbered(sends) && j < |sends| && sends[j].Fragmented()
    ensures sends[j].fragmentId in Originals(sends) && Originals(sends)[sends[j].fragmentId] == sends[j].AsWhole()
  {
    OriginalAt(sends, j);
  }

  // A unit that had not landed before keeps everything, and fails the connection only when the
  // receiver has fragmentation switched off.
  lemma LandKeeps(limits: Limits, sends: seq<Record>, r: Receiver, log: seq<Delivery>, t: Tally, now: nat, j: nat,
                  i: nat, roomy: bool, e: Effect)
    returns (t': Tally)
    requires LandOk(sends, r, log, t) && j < |sends| && sends[j].WellFormed()
    requires i < sends[j].Units() && Unit(j, i) !in t.arrived
    requires e == Land(limits, r, now, sends[j], i, roomy)
    ensures LandOk(sends, e.r, log + e.out, t') && t'.arrived == t.arrived + {Unit(j, i)}
    ensures e.status.Err? ==> !limits.fragmentation.enabled
  {
    if sends[j].Fragmented() {
      IsOriginal(sends, j);
      t' := FragmentUnitLands(limits, sends, r, log, t, now, j, i, roomy, e);
    } else {
      t' := Handed(sends, r, t.(arrived := t.arrived + {Unit(j, 0)}), j);
      InlineLands(limits, sends, r, log, t, j, t');
    }
  }

  // Exactly when it fails the connection.
  lemma LandFailsIff(limits: Limits, sends: seq<Record>, r: Receiver, log: seq<Delivery>, t: Tally, now: nat, j: nat,
                     i: nat, roomy: bool, e: Effect)
    requires LandOk(sends, r, log, t) && j < |sends| && sends[j].WellFormed()
    requires i < sends[j].Units() && Unit(j, i) !in t.arrived && e == Land(limits, r, now, sends[j], i, roomy)
    ensures e.status.Err? <==>
      && sends[j].Fragmented() && !limits.fragmentation.enabled
      && (roomy || sends[j].fragmentId in r.reassembly.entries)
  {
    var t' := LandKeeps(limits, sends, r, log, t, now, j, i, roomy, e);
    if !sends[j].Fragmented() {
      InlineLands(limits, sends, r, log, t, j, Handed(sends, r, t.(arrived := t.arrived + {Unit(j, 0)}), j));
    }
  }

  lemma LandSameWindows(limits: Limits, r: Receiver, now: nat, rec: Record, i: nat, roomy: bool)
    requires R.Consistent(r.reassembly) && rec.WellFormed() && i < rec.Units()
    ensures SameWindows(r, Land(limits, r, now, rec, i, roomy).r)
  {
  }

  // ------------------------------------------------------------ a unit that was not kept

  // The receiver still has the unit, in the reassembler or as part of a message on the ordered channel.
  ghost predicate Holds(r: Receiver, rec: Record, i: nat) {
    || (rec.Fragmented() && rec.fragmentId in r.reassembly.entries &&
        var received := r.reassembly.entries[rec.fragmentId].received; i < |received| && received[i])
    || (rec.channel.ReliableOrdered? && O.Held(r.ordered, rec.number))
  }

  // A unit of an ordered message that came and was not kept.
  ghost predicate Missed(sends: seq<Record>, r: Receiver, arrived: set<Unit>, u: Unit) {
    && u in arrived && u.send < |sends| && u.index < sends[u.send].Units()
    && sends[u.send].channel.ReliableOrdered? && !Holds(r, sends[u.send], u.index)
  }

  // The flags of an entry are the indices it has.
  lemma FlagsAreIndices(st: R.State, parts: map<nat, R.Partial>, originals: map<nat, R.Whole>, id: nat, i: nat)
    requires R.Mirrors(st, parts, originals) && id in parts
    ensures var received := st.entries[id].received;
      |received| == Count(|originals[id].payload|) && (i in parts[id].have <==> i < |received| && received[i])
  {
    assert R.EntryMirrors(st.entries[id], parts[id], originals[id]);
  }

  lemma HasAllHas(have: set<nat>, m: R.Whole, i: nat)
    requires R.HasAll(have, m) && i < Count(|m.payload|)
    ensures i in have
  {
  }

  // Handing over another message does not bring it back.
  lemma OtherDeliveryHolds(limits: Limits, sends: seq<Record>, r: Receiver, j: nat, u: Unit)
    requires AllNumbered(sends) && j < |sends| && u.send < |sends| && u.send != j
    requires sends[u.send].channel.ReliableOrdered? && !Holds(r, sends[u.send], u.index)
    ensures var rec := sends[j];
      !Holds(Deliver(limits, r, Delivery(rec.channel, rec.kind, rec.payload), rec.number).r, sends[u.send], u.index)
  {
    var rec := sends[j];
    if rec.channel.ReliableOrdered? {
      assert Numbered(sends, j);
      if j < u.send { OrderedNumbersDiffer(sends, j, u.send); } else { OrderedNumbersDiffer(sends, u.send, j); }
      O.HeldAfter(r.ordered, limits.orderedWindow, rec.number, O.App(rec.kind, rec.payload), sends[u.send].number);
    }
  }

  // The reassembler's verdict on another unit does not set the flag.
  lemma OtherFragmentHolds(sends: seq<Record>, r: Receiver, t: Tally, j: nat, i: nat, u: Unit, st: R.State,
                           parts': map<nat, R.Partial>, outcome: R.Outcome)
    requires AllNumbered(sends) && R.Mirrors(r.reassembly, t.parts, Originals(sends))
    requires j < |sends| && sends[j].Fragmented() && u != Unit(j, i) && Missed(sends, r, t.arrived, u)
    requires R.Mirrors(st, parts', Originals(sends)) && Local(t.parts, sends[j].AsWhole(), i, parts', outcome)
    ensures !Holds(r.(reassembly := st), sends[u.send], u.index)
    ensures outcome.Completed? ==> u.send != j
  {
    var rec := sends[u.send];
    var id := rec.fragmentId;
    if rec.Fragmented() {
      if u.send < j { FragmentIdsDiffer(sends, u.send, j); } else if j < u.send { FragmentIdsDiffer(sends, j, u.send); }
      if id in parts' { FlagsAreIndices(st, parts', Originals(sends), id, u.index); }
      if id in t.parts { FlagsAreIndices(r.reassembly, t.parts, Originals(sends), id, u.index); }
      assert u.index !in Have(t.parts, id);
      if outcome.Completed? && u.send == j { HasAllHas(Have(t.parts, id) + {i}, rec.AsWhole(), u.index); }
    }
  }

  lemma FragmentMisses(limits: Limits, sends: seq<Record>, r: Receiver, log: seq<Delivery>, t: Tally, now: nat, j: nat,
                       i: nat, u: Unit)
    requires LandOk(sends, r, log, t) && j < |sends| && sends[j].WellFormed()
    requires sends[j].Fragmented() && i < sends[j].Units()
    requires sends[j].fragmentId in Originals(sends) && Originals(sends)[sends[j].fragmentId] == sends[j].AsWhole()
    requires u != Unit(j, i) && Missed(sends, r, t.arrived, u)
    ensures !Holds(Accepted(limits, r, now, sends[j].AsWhole(), i).r, sends[u.send], u.index)
  {
    var id, originals := sends[j].fragmentId, Originals(sends);
    R.AcceptRefinesCollect(limits.fragmentation, r.reassembly, t.parts, originals, now, id, i, Deliverable());
    CollectIsLocal(limits.fragmentation, originals, t.parts, now, id, i, Deliverable());
    var (parts', outcome) := R.Collect(limits.fragmentation, originals, t.parts, now, id, i, Deliverable());
    var f := R.FragmentOf(sends[j].AsWhole(), i);
    var st := R.AcceptFragment(limits.fragmentation, r.reassembly, now, f, Deliverable()).0;
    OtherFragmentHolds(sends, r, t, j, i, u, st, parts', outcome);
    if outcome.Completed? { OtherDeliveryHolds(limits, sends, r.(reassembly := st), j, u); }
  }

  // Whatever else lands, a unit that was not kept stays away.
  lemma MissedStays(limits: Limits, sends: seq<Record>, r: Receiver, log: seq<Delivery>, t: Tally, now: nat, j: nat,
                    i: nat, roomy: bool, e: Effect, u: Unit)
    requires LandOk(sends, r, log, t) && j < |sends| && sends[j].WellFormed()
    requires i < sends[j].Units() && Unit(j, i) !in t.arrived && Missed(sends, r, t.arrived, u)
    requires e == Land(limits, r, now, sends[j], i, roomy)
    ensures !Holds(e.r, sends[u.send], u.index)
  {
    if sends[j].Fragmented() {
      IsOriginal(sends, j);
      if sends[j].fragmentId in t.parts || roomy { FragmentMisses(limits, sends, r, log, t, now, j, i, u); }
    } else {
      OtherDeliveryHolds(limits, sends, r, j, u);
    }
  }

  // ------------------------------------------------------------- expiry and new messages

  lemma ExpiryLands(limits: Limits, sends: seq<Record>, r: Receiver, log: seq<Delivery>, t: Tally, now: nat)
    returns (t': Tally)
    requires LandOk(sends, r, log, t)
    ensures LandOk(sends, ExpireReassembly(limits, r, now), log, t') && t'.arrived == t.arrived
  {
    t' := t.(parts := R.Remaining(limits.fragmentation, t.parts, now));
    R.ExpiryMirrors(limits.fragmentation, r.reassembly, t.parts, Originals(sends), now);
    ArrivalKeeps(sends, r, log, t, t');
  }

  lemma NewFragmentId(sends: seq<Record>, rec: Record)
    requires AllNumbered(sends) && AllNumbered(sends + [rec]) && rec.Fragmented()
    ensures rec.fragmentId !in Originals(sends)
  {
    OriginalsKnown(sends);
    assert Numbered(sends + [rec], |sends|) && (sends + [rec])[..|sends|] == sends;
  }

  lemma MirrorsGrow(st: R.State, parts: map<nat, R.Partial>, originals: map<nat, R.Whole>, more: map<nat, R.Whole>)
    requires R.Mirrors(st, parts, originals) && R.KnownMessages(more)
    requires forall id | id in originals :: id in more && more[id] == originals[id]
    ensures R.Mirrors(st, parts, more)
  {
    forall id | id in parts ensures R.EntryMirrors(st.entries[id], parts[id], more[id]) {
      assert R.EntryMirrors(st.entries[id], parts[id], originals[id]);
    }
  }

  lemma ReassemblyGrows(sends: seq<Record>, rec: Record, r: Receiver, t: Tally)
    requires AllNumbered(sends) && AllNumbered(sends + [rec])
    requires R.Mirrors(r.reassembly, t.parts, Originals(sends)) && PartsArrived(sends, t)
    ensures R.Mirrors(r.reassembly, t.parts, Originals(sends + [rec])) && PartsArrived(sends + [rec], t)
  {
    var more := sends + [rec];
    assert more[..|sends|] == sends;
    OriginalsKnown(more);
    if rec.Fragmented() { NewFragmentId(sends, rec); }
    MirrorsGrow(r.reassembly, t.parts, Originals(sends), Originals(more));
  }

  // A message that was just numbered is neither delivered nor buffered.
  lemma HeldGrows(sends: seq<Record>, rec: Record, st: O.State, t: Tally)
    requires HeldArrived(sends, st, t) && AllNumbered(sends + [rec]) && O.Tracks(st, OrderedOf(sends))
    ensures HeldArrived(sends + [rec], st, t)
  {
    var more := sends + [rec];
    assert more[..|sends|] == sends && Numbered(more, |sends|);
    forall j | 0 <= j < |more| && more[j].channel.ReliableOrdered? && O.Held(st, more[j].number)
      ensures AllArrived(more, t.arrived, j)
    {
      if j < |sends| { assert AllArrived(sends, t.arrived, j); }
    }
  }

  lemma DeliveriesGrow(sends: seq<Record>, rec: Record, r: Receiver, log: seq<Delivery>, t: Tally)
    requires DeliveryOk(sends, r, log, t) && AllNumbered(sends + [rec])
    ensures DeliveryOk(sends + [rec], r, log, t)
  {
    var more := sends + [rec];
    assert more[..|sends|] == sends;
    HeldGrows(sends, rec, r.ordered, t);
    forall k | 0 <= k < |t.origins| ensures OriginOk(more, t, t.origins[k], DirectPart(log)[k]) {
      assert OriginOk(sends, t, t.origins[k], DirectPart(log)[k]);
    }
  }

  // A message that was sent but has not arrived changes nothing.
  lemma SendingLands(sends: seq<Record>, rec: Record, r: Receiver, log: seq<Delivery>, t: Tally)
    requires LandOk(sends, r, log, t) && AllNumbered(sends + [rec])
    ensures LandOk(sends + [rec], r, log, t)
  {
    ReassemblyGrows(sends, rec, r, t);
    DeliveriesGrow(sends, rec, r, log, t);
  }

  lemma NothingLanded()
    ensures LandOk([], FRESH, [], Tally({}, map[], []))
  {
    R.NothingMirrored(map[]);
  }
}
