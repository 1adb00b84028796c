// Acknowledged is not kept: what the receiver acknowledges, and exactly when it keeps or delivers it.
module Keeping {
  import opened Config
  import opened Codec
  import opened Fragments
  import opened Sums
  import opened Windows
  import opened Outbound
  import opened Inbound
  import opened Landing
  import R = Reassembly
  import O = Ordered

  // ---------------------------------------------------------------- what is kept, exactly

  // The unit was delivered, or waits in a buffer.
  ghost predicate Kept(e: Effect, rec: Record, i: nat) {
    Holds(e.r, rec, i) || (!rec.channel.ReliableOrdered? && Delivery(rec.channel, rec.kind, rec.payload) in e.out)
  }

  // The channel takes the message once it is complete: on the ordered one it is next or there is room in the buffer, on
  // the sequenced one it is newer than everything delivered.
  predicate Wanted(limits: Limits, r: Receiver, rec: Record) {
    && (rec.channel.ReliableOrdered? ==> rec.number == r.ordered.next || |r.ordered.buffer| < limits.orderedWindow)
    && (rec.channel.SequencedUnreliable? ==> rec.number > r.latest)
  }

  // Fragment i is the last one its message misses.
  ghost predicate Completes(r: Receiver, rec: Record, i: nat) {
    if rec.fragmentId in r.reassembly.entries then
      var received := r.reassembly.entries[rec.fragmentId].received;
      forall k | 0 <= k < |received| && k != i :: received[k]
    else Count(|rec.payload|) == 1
  }

  // The guards of the reassembler, for a message of this size that is known or not.
  predicate Fits(cfg: FragmentationConfig, bytes: nat, known: bool, concurrent: nat, memory: nat) {
    && cfg.enabled && Count(bytes) <= cfg.maxFragmentsPerMessage && bytes <= cfg.maxReassembledMessageBytes
    && (known || (concurrent < cfg.maxConcurrentReassemblies && memory + bytes <= cfg.maxReassemblyMemory))
  }

  ghost predicate FragmentRoom(limits: Limits, r: Receiver, rec: Record, roomy: bool) {
    && (rec.fragmentId in r.reassembly.entries || roomy)
    && Fits(limits.fragmentation, |rec.payload|, rec.fragmentId in r.reassembly.entries,
            |r.reassembly.entries|, r.reassembly.memory)
  }

  ghost predicate Room(limits: Limits, r: Receiver, rec: Record, i: nat, roomy: bool) {
    if rec.Fragmented() then
      FragmentRoom(limits, r, rec, roomy) && (Completes(r, rec, i) ==> Wanted(limits, r, rec))
    else Wanted(limits, r, rec)
  }

  // The unit is the last one its message needs.
  ghost predicate Last(r: Receiver, rec: Record, i: nat) { rec.Fragmented() ==> Completes(r, rec, i) }

  // Outside the ordered channel, a message is handed over whole with its last unit, and nothing else is.
  ghost predicate HandsOver(limits: Limits, r: Receiver, rec: Record, i: nat, roomy: bool, e: Effect) {
    !rec.channel.ReliableOrdered? ==>
      e.out == if Last(r, rec, i) && Room(limits, r, rec, i, roomy)
               then [Delivery(rec.channel, rec.kind, rec.payload)] else []
  }

  lemma DeliverKeptIff(limits: Limits, r: Receiver, rec: Record, i: nat, e: Effect)
    requires rec.WellFormed()
    requires e == Deliver(limits, r, Delivery(rec.channel, rec.kind, rec.payload), rec.number)
    requires rec.Fragmented() ==> rec.fragmentId !in r.reassembly.entries
    requires rec.channel.ReliableOrdered? ==> !O.Held(r.ordered, rec.number)
    ensures Kept(e, rec, i) <==> Wanted(limits, r, rec)
    ensures !rec.channel.ReliableOrdered? ==>
      e.out == if Wanted(limits, r, rec) then [Delivery(rec.channel, rec.kind, rec.payload)] else []
  {
    if rec.channel.ReliableOrdered? {
      O.HeldAfter(r.ordered, limits.orderedWindow, rec.number, O.App(rec.kind, rec.payload), rec.number);
    }
  }

  lemma NotHeldYet(sends: seq<Record>, r: Receiver, log: seq<Delivery>, t: Tally, j: nat, i: nat)
    requires LandOk(sends, r, log, t) && j < |sends| && i < sends[j].Units() && Unit(j, i) !in t.arrived
    ensures sends[j].channel.ReliableOrdered? ==> !O.Held(r.ordered, sends[j].number)
    ensures sends[j].Fragmented() ==> i !in Have(t.parts, sends[j].fragmentId)
  {
  }

  lemma CompletesIff(st: R.State, parts: map<nat, R.Partial>, originals: map<nat, R.Whole>, r: Receiver, rec: Record,
                     i: nat)
    requires R.Mirrors(st, parts, originals) && r.reassembly == st && rec.Fragmented() && i < Count(|rec.payload|)
    requires rec.fragmentId in originals && originals[rec.fragmentId] == rec.AsWhole()
    ensures R.HasAll(Have(parts, rec.fragmentId) + {i}, rec.AsWhole()) <==> Completes(r, rec, i)
  {
    var id := rec.fragmentId;
    var have := Have(parts, id) + {i};
    if id in parts {
      forall k: nat ensures k in parts[id].have <==> k < |st.entries[id].received| && st.entries[id].received[k] {
        FlagsAreIndices(st, parts, originals, id, k);
      }
      FlagsAreIndices(st, parts, originals, id, i);
      if Completes(r, rec, i) {
        forall k: nat | k < Count(|rec.payload|) ensures k in have {}
      }
      if R.HasAll(have, rec.AsWhole()) {
        forall k | 0 <= k < |st.entries[id].received| && k != i ensures st.entries[id].received[k] { assert k in have; }
      }
    } else if Count(|rec.payload|) > 1 {
      var other: nat := if i == 0 then 1 else 0;
      assert other !in have;
    }
  }

  lemma CollectsWhenFits(cfg: FragmentationConfig, originals: map<nat, R.Whole>, parts: map<nat, R.Partial>, now: nat,
                         m: R.Whole, i: nat)
    requires m.messageId in originals && originals[m.messageId] == m && parts.Keys <= originals.Keys
    ensures var (parts', outcome) := R.Collect(cfg, originals, parts, now, m.messageId, i, Deliverable());
      if Fits(cfg, |m.payload|, m.messageId in parts, |parts|, Sum(R.Footprint(originals, parts))) then
        (parts', outcome) == R.Gather(parts, m, Have(parts, m.messageId), now, i, Deliverable())
      else parts' == parts && outcome.Rejected?
  {
  }

  lemma CollectsWhenRoom(limits: Limits, r: Receiver, rec: Record, i: nat, roomy: bool, parts: map<nat, R.Partial>,
                         originals: map<nat, R.Whole>, now: nat)
    requires R.Mirrors(r.reassembly, parts, originals) && rec.Fragmented()
    requires rec.fragmentId in originals && originals[rec.fragmentId] == rec.AsWhole()
    requires rec.fragmentId in parts || roomy
    ensures var (parts', outcome) :=
        R.Collect(limits.fragmentation, originals, parts, now, rec.fragmentId, i, Deliverable());
      if FragmentRoom(limits, r, rec, roomy) then
        (parts', outcome) == R.Gather(parts, rec.AsWhole(), Have(parts, rec.fragmentId), now, i, Deliverable())
      else parts' == parts && outcome.Rejected?
  {
    R.MirrorsFootprint(r.reassembly, parts, originals);
    CollectsWhenFits(limits.fragmentation, originals, parts, now, rec.AsWhole(), i);
  }

  lemma GatherVerdict(parts: map<nat, R.Partial>, m: R.Whole, now: nat, i: nat, deliver: R.Whole -> bool)
    requires i !in Have(parts, m.messageId) && deliver(m)
    ensures var (parts', outcome) := R.Gather(parts, m, Have(parts, m.messageId), now, i, deliver);
      if R.HasAll(Have(parts, m.messageId) + {i}, m) then outcome == R.Completed(m) && m.messageId !in parts'
      else outcome == R.Stored && m.messageId in parts' && i in parts'[m.messageId].have
  {
  }

  // The verdict of the sets says whether the fragment is kept or completes its message.
  lemma VerdictKept(limits: Limits, r: Receiver, rec: Record, i: nat, roomy: bool, parts: map<nat, R.Partial>,
                    originals: map<nat, R.Whole>, now: nat, parts': map<nat, R.Partial>, outcome: R.Outcome)
    requires R.Mirrors(r.reassembly, parts, originals) && rec.WellFormed() && rec.Fragmented() && i < rec.Units()
    requires rec.fragmentId in originals && originals[rec.fragmentId] == rec.AsWhole()
    requires i !in Have(parts, rec.fragmentId) && (rec.fragmentId in parts || roomy)
    requires (parts', outcome)
         == R.Collect(limits.fragmentation, originals, parts, now, rec.fragmentId, i, Deliverable())
    ensures
      if !FragmentRoom(limits, r, rec, roomy) then outcome.Rejected? && parts' == parts
      else if Completes(r, rec, i) then outcome == R.Completed(rec.AsWhole()) && rec.fragmentId !in parts'
      else outcome.Stored? && rec.fragmentId in parts' && i in parts'[rec.fragmentId].have
  {
    CollectsWhenRoom(limits, r, rec, i, roomy, parts, originals, now);
    CompletesIff(r.reassembly, parts, originals, r, rec, i);
    GatherVerdict(parts, rec.AsWhole(), now, i, Deliverable());
  }

  lemma FragmentKeptIff(limits: Limits, sends: seq<Record>, r: Receiver, log: seq<Delivery>, t: Tally, now: nat, j: nat,
                        i: nat, roomy: bool, e: Effect)
    requires LandOk(sends, r, log, t) && j < |sends| && sends[j].WellFormed() && sends[j].Fragmented()
    requires i < sends[j].Units() && Unit(j, i) !in t.arrived
    requires sends[j].fragmentId in Originals(sends) && Originals(sends)[sends[j].fragmentId] == sends[j].AsWhole()
    requires e == HandleFragment(limits, r, now, R.FragmentOf(sends[j].AsWhole(), i), roomy)
    ensures Kept(e, sends[j], i) <==> Room(limits, r, sends[j], i, roomy)
    ensures HandsOver(limits, r, sends[j], i, roomy, e)
  {
    NotHeldYet(sends, r, log, t, j, i);
    if sends[j].fragmentId in t.parts || roomy {
      AcceptedKeptIff(limits, r, sends[j], i, roomy, t.parts, Originals(sends), now, e);
    }
  }

  lemma CompletedKeptIff(limits: Limits, r: Receiver, rec: Record, i: nat, roomy: bool, st: R.State, e: Effect)
    requires rec.WellFormed() && rec.Fragmented() && rec.fragmentId !in st.entries
    requires FragmentRoom(limits, r, rec, roomy) && Completes(r, rec, i)
    requires rec.channel.ReliableOrdered? ==> !O.Held(r.ordered, rec.number)
    requires e == Deliver(limits, r.(reassembly := st), Delivery(rec.channel, rec.kind, rec.payload), rec.number)
    ensures Kept(e, rec, i) <==> Room(limits, r, rec, i, roomy)
    ensures HandsOver(limits, r, rec, i, roomy, e)
  {
    DeliverKeptIff(limits, r.(reassembly := st), rec, i, e);
  }

  lemma AcceptedKeptIff(limits: Limits, r: Receiver, rec: Record, i: nat, roomy: bool, parts: map<nat, R.Partial>,
                        originals: map<nat, R.Whole>, now: nat, e: Effect)
    requires R.Mirrors(r.reassembly, parts, originals) && rec.WellFormed() && rec.Fragmented() && i < rec.Units()
    requires rec.fragmentId in originals && originals[rec.fragmentId] == rec.AsWhole()
    requires i !in Have(parts, rec.fragmentId) && (rec.fragmentId in parts || roomy)
    requires rec.channel.ReliableOrdered? ==> !O.Held(r.ordered, rec.number)
    requires e == Accepted(limits, r, now, rec.AsWhole(), i)
    ensures Kept(e, rec, i) <==> Room(limits, r, rec, i, roomy)
    ensures HandsOver(limits, r, rec, i, roomy, e)
  {
    var id := rec.fragmentId;
    R.AcceptRefinesCollect(limits.fragmentation, r.reassembly, parts, originals, now, id, i, Deliverable());
    var (parts', outcome) := R.Collect(limits.fragmentation, originals, parts, now, id, i, Deliverable());
    var f := R.FragmentOf(rec.AsWhole(), i);
    var st := R.AcceptFragment(limits.fragmentation, r.reassembly, now, f, Deliverable()).0;
    VerdictKept(limits, r, rec, i, roomy, parts, originals, now, parts', outcome);
    if outcome.Completed? {
      CompletedKeptIff(limits, r, rec, i, roomy, st, e);
    } else if id in parts' {
      FlagsAreIndices(st, parts', originals, id, i);
    }
  }

  // A reliable frame of a unit that has not landed, in any receiver that so far took only what the peer sent, is
  // delivered or kept if and only if the id window admits it and there is room: in the reassembler for a fragment, and
  // in the ordered buffer for a message that is complete but not next.
  lemma FreshFrameKeptIff(limits: Limits, sends: seq<Record>, r: Receiver, log: seq<Delivery>, t: Tally, now: nat,
                          j: nat, i: nat, id: nat, roomy: bool, ids: set<nat>, e: Effect)
    requires LandOk(sends, r, log, t) && j < |sends| && NumbersFit(sends[j]) && sends[j].WellFormed()
    requires sends[j].channel.IsReliable() && Unambiguous(sends[j]) && i < sends[j].Units() && Unit(j, i) !in t.arrived
    requires 0 < id < U64_LIMIT && Represents(IdsOf(r, sends[j].channel), ids)
    requires e == Dispatch(limits, r, now, sends[j].TrackedFrame(i, id), roomy)
    ensures Kept(e, sends[j], i) <==> Admits(ids, id) && Room(limits, r, sends[j], i, roomy)
  {
    var r1 := WithIds(r, sends[j].channel, Slide(IdsOf(r, sends[j].channel), id).0);
    assert R.Consistent(r.reassembly);
    SlideRefinesSet(IdsOf(r, sends[j].channel), ids, id);
    TrackedFrameLands(limits, r, now, sends[j], i, id, roomy);
    WindowsAside(limits, sends, r, log, t, r1, j, i, roomy);
    if Admits(ids, id) {
      UnitKeptIff(limits, sends, r1, log, t, now, j, i, roomy);
    } else {
      NotHolding(sends, r1, log, t, j, i);
    }
  }

  // What has not landed is not there.
  lemma NotHolding(sends: seq<Record>, r: Receiver, log: seq<Delivery>, t: Tally, j: nat, i: nat)
    requires LandOk(sends, r, log, t) && j < |sends| && i < sends[j].Units() && Unit(j, i) !in t.arrived
    ensures !Holds(r, sends[j], i)
  {
    NotHeldYet(sends, r, log, t, j, i);
    if sends[j].Fragmented() && sends[j].fragmentId in t.parts {
      FlagsAreIndices(r.reassembly, t.parts, Originals(sends), sends[j].fragmentId, i);
    }
  }

  lemma WindowsAside(limits: Limits, sends: seq<Record>, r: Receiver, log: seq<Delivery>, t: Tally, r1: Receiver,
                     j: nat, i: nat, roomy: bool)
    requires LandOk(sends, r, log, t) && j < |sends|
    requires r1.ordered == r.ordered && r1.latest == r.latest && r1.reassembly == r.reassembly
    ensures LandOk(sends, r1, log, t)
    ensures Room(limits, r1, sends[j], i, roomy) == Room(limits, r, sends[j], i, roomy)
  {
  }

  // Once past the windows.
  lemma UnitKeptIff(limits: Limits, sends: seq<Record>, r: Receiver, log: seq<Delivery>, t: Tally, now: nat, j: nat,
                    i: nat, roomy: bool)
    requires LandOk(sends, r, log, t) && j < |sends| && sends[j].WellFormed()
    requires i < sends[j].Units() && Unit(j, i) !in t.arrived
    ensures Kept(Land(limits, r, now, sends[j], i, roomy), sends[j], i) <==> Room(limits, r, sends[j], i, roomy)
    ensures HandsOver(limits, r, sends[j], i, roomy, Land(limits, r, now, sends[j], i, roomy))
  {
    var e := Land(limits, r, now, sends[j], i, roomy);
    if sends[j].Fragmented() {
      IsOriginal(sends, j);
      FragmentKeptIff(limits, sends, r, log, t, now, j, i, roomy, e);
    } else {
      NotHeldYet(sends, r, log, t, j, i);
      DeliverKeptIff(limits, r, sends[j], i, e);
    }
  }

  // An unreliable frame of a unit that has not landed is delivered or kept if and only if there is room, and a
  // sequenced message is newer than everything delivered; with its last unit the message is handed over.
  lemma FreeFrameKeptIff(limits: Limits, sends: seq<Record>, r: Receiver, log: seq<Delivery>, t: Tally, now: nat,
                         j: nat, i: nat, roomy: bool, e: Effect)
    requires LandOk(sends, r, log, t) && j < |sends| && NumbersFit(sends[j]) && sends[j].WellFormed()
    requires !sends[j].channel.IsReliable() && i < sends[j].Units() && Unit(j, i) !in t.arrived
    requires e == Dispatch(limits, r, now, sends[j].FreeFrame(i), roomy)
    ensures Kept(e, sends[j], i) <==> Room(limits, r, sends[j], i, roomy)
    ensures HandsOver(limits, r, sends[j], i, roomy, e)
  {
    assert R.Consistent(r.reassembly);
    FreeFrameLands(limits, r, now, sends[j], i, roomy);
    UnitKeptIff(limits, sends, r, log, t, now, j, i, roomy);
  }

  // An inline message, in any receiver at all: kept if it was held before, or if its id is admitted and there is room.
  lemma InlineFrameKeptIff(limits: Limits, r: Receiver, now: nat, rec: Record, id: nat, roomy: bool, ids: set<nat>)
    requires R.Consistent(r.reassembly) && rec.WellFormed() && NumbersFit(rec) && rec.channel.IsReliable()
    requires !rec.Fragmented() && Unambiguous(rec) && 0 < id < U64_LIMIT && Represents(IdsOf(r, rec.channel), ids)
    ensures Kept(Dispatch(limits, r, now, rec.TrackedFrame(0, id), roomy), rec, 0) <==>
      || (rec.channel.ReliableOrdered? && O.Held(r.ordered, rec.number))
      || (Admits(ids, id) && Wanted(limits, r, rec))
  {
    SlideRefinesSet(IdsOf(r, rec.channel), ids, id);
    TrackedFrameLands(limits, r, now, rec, 0, id, roomy);
    if rec.channel.ReliableOrdered? {
      O.HeldAfter(r.ordered, limits.orderedWindow, rec.number, O.App(rec.kind, rec.payload), rec.number);
    }
  }

  // ------------------------------------------------------------------ acknowledged and lost

  // A reliable frame the peer built is acknowledged, in every receiver.
  lemma AlwaysAcknowledged(rec: Record, i: nat, id: nat)
    requires rec.WellFormed() && i < rec.Units() && rec.channel.IsReliable() && 0 < id < U64_LIMIT
    ensures SignalsOf(rec.TrackedFrame(i, id)) == [Acknowledge(rec.channel, id)]
  {
    UnitFits(rec, i, id);
    ReadNumberedOfEncode(id, rec.Body(i));
  }

  // What comes next: a frame, with its time and the server's memory verdict, or an expiry.
  datatype Input = Frame(message: Message, now: nat, roomy: bool) | Expiry(now: nat)

  ghost function Taken(limits: Limits, r: Receiver, input: Input): (r': Receiver)
    requires R.Consistent(r.reassembly)
    ensures R.Consistent(r'.reassembly)
  {
    match input
    case Frame(m, now, roomy) =>
      DispatchConsistent(limits, r, now, m, roomy);
      Dispatch(limits, r, now, m, roomy).r
    case Expiry(now) => ExpireReassembly(limits, r, now)
  }

  // The receiver after inputs, whatever they are.
  ghost function After(limits: Limits, r: Receiver, inputs: seq<Input>): (r': Receiver)
    requires R.Consistent(r.reassembly)
    ensures R.Consistent(r'.reassembly)
    decreases |inputs|
  {
    if inputs == [] then r else After(limits, Taken(limits, r, inputs[0]), inputs[1..])
  }

  ghost predicate SameIds(r: Receiver, r': Receiver) {
    r'.reliableIds == r.reliableIds && r'.orderedIds == r.orderedIds
  }

  lemma FragmentKeepsIds(limits: Limits, r: Receiver, now: nat, f: Fragment, roomy: bool)
    requires R.Consistent(r.reassembly)
    ensures SameIds(r, HandleFragment(limits, r, now, f, roomy).r)
  {
  }

  lemma BodyKeepsIds(limits: Limits, r: Receiver, now: nat, channel: Channel, kind: byte, data: seq<byte>, roomy: bool)
    requires R.Consistent(r.reassembly)
    ensures SameIds(r, HandleReliable(limits, r, now, channel, kind, data, roomy).r)
  {
    if ReadFragment(data).Success? { FragmentKeepsIds(limits, r, now, ReadFragment(data).value, roomy); }
  }

  lemma DispatchIds(limits: Limits, r: Receiver, now: nat, m: Message, roomy: bool)
    requires R.Consistent(r.reassembly)
    ensures var r' := Dispatch(limits, r, now, m, roomy).r;
      if m.channel.IsReliable() && ReadNumbered(m.data).Success? then
        SameIds(WithIds(r, m.channel, Slide(IdsOf(r, m.channel), ReadNumbered(m.data).value.0).0), r')
      else SameIds(r, r')
  {
    if m.channel.Control? && ReadFragment(m.data).Success? {
      FragmentKeepsIds(limits, r, now, ReadFragment(m.data).value, roomy);
    }
    if m.channel.IsReliable() && ReadNumbered(m.data).Success? {
      var (id, data) := ReadNumbered(m.data).value;
      var r1 := WithIds(r, m.channel, Slide(IdsOf(r, m.channel), id).0);
      BodyKeepsIds(limits, r1, now, m.channel, m.kind, data, roomy);
    }
  }

  // An id once accepted stays accepted, on either reliable channel, whatever follows.
  lemma IdsGrow(limits: Limits, r: Receiver, input: Input, channel: Channel, ids: set<nat>) returns (ids': set<nat>)
    requires R.Consistent(r.reassembly) && channel.IsReliable() && Represents(IdsOf(r, channel), ids)
    ensures ids <= ids' && Represents(IdsOf(Taken(limits, r, input), channel), ids')
  {
    ids' := ids;
    if input.Frame? {
      var m := input.message;
      DispatchIds(limits, r, input.now, m, input.roomy);
      if m.channel == channel && ReadNumbered(m.data).Success? {
        var id := ReadNumbered(m.data).value.0;
        SlideRefinesSet(IdsOf(r, channel), ids, id);
        ids' := AcceptInto(ids, id);
      }
    }
  }

  lemma {:induction false} IdsGrowAfter(limits: Limits, r: Receiver, inputs: seq<Input>, channel: Channel,
                                        ids: set<nat>)
    returns (ids': set<nat>)
    requires R.Consistent(r.reassembly) && channel.IsReliable() && Represents(IdsOf(r, channel), ids)
    ensures ids <= ids' && Represents(IdsOf(After(limits, r, inputs), channel), ids')
    decreases |inputs|
  {
    ids' := ids;
    if inputs != [] {
      var next := IdsGrow(limits, r, inputs[0], channel, ids);
      ids' := IdsGrowAfter(limits, Taken(limits, r, inputs[0]), inputs[1..], channel, next);
    }
  }

  // A frame came to nothing: no delivery, no error, and what the receiver holds is what it held.
  ghost predicate Nothing(r: Receiver, e: Effect) {
    && e.out == [] && e.status == Ok
    && e.r.ordered == r.ordered && e.r.reassembly == r.reassembly && e.r.latest == r.latest
  }

  // A frame whose id is refused, as accepted before or as left behind, comes to nothing.
  lemma RefusedDoesNothing(limits: Limits, r: Receiver, now: nat, rec: Record, i: nat, id: nat, roomy: bool,
                           ids: set<nat>)
    requires R.Consistent(r.reassembly) && rec.WellFormed() && NumbersFit(rec) && i < rec.Units() && Unambiguous(rec)
    requires rec.channel.IsReliable() && 0 < id < U64_LIMIT
    requires Represents(IdsOf(r, rec.channel), ids) && !Admits(ids, id)
    ensures Nothing(r, Dispatch(limits, r, now, rec.TrackedFrame(i, id), roomy))
  {
    SlideRefinesSet(IdsOf(r, rec.channel), ids, id);
    TrackedFrameLands(limits, r, now, rec, i, id, roomy);
  }

  // ... and so does every later copy of it, in every receiver and after any inputs, each acknowledged.
  lemma RefusedForGood(limits: Limits, r: Receiver, rec: Record, i: nat, id: nat, ids: set<nat>, inputs: seq<Input>,
                       now: nat, roomy: bool)
    requires R.Consistent(r.reassembly) && rec.WellFormed() && NumbersFit(rec) && i < rec.Units() && Unambiguous(rec)
    requires rec.channel.IsReliable() && 0 < id < U64_LIMIT
    requires Represents(IdsOf(r, rec.channel), ids) && !Admits(ids, id)
    ensures SignalsOf(rec.TrackedFrame(i, id)) == [Acknowledge(rec.channel, id)]
    ensures var later := After(limits, r, inputs);
      Nothing(later, Dispatch(limits, later, now, rec.TrackedFrame(i, id), roomy))
  {
    AlwaysAcknowledged(rec, i, id);
    var ids' := IdsGrowAfter(limits, r, inputs, rec.channel, ids);
    RefusedStays(ids, ids', id);
    RefusedDoesNothing(limits, After(limits, r, inputs), now, rec, i, id, roomy, ids');
  }

  // After its frame was dispatched, an id is refused.
  lemma RefusedAfterwards(limits: Limits, r: Receiver, now: nat, m: Message, id: nat, roomy: bool, ids: set<nat>)
    requires R.Consistent(r.reassembly) && m.channel.IsReliable() && Represents(IdsOf(r, m.channel), ids)
    requires ReadNumbered(m.data).Success? && ReadNumbered(m.data).value.0 == id
    ensures var r' := Dispatch(limits, r, now, m, roomy).r;
      R.Consistent(r'.reassembly) && Represents(IdsOf(r', m.channel), AcceptInto(ids, id))
    ensures !Admits(AcceptInto(ids, id), id)
  {
    DispatchConsistent(limits, r, now, m, roomy);
    DispatchIds(limits, r, now, m, roomy);
    SlideRefinesSet(IdsOf(r, m.channel), ids, id);
    RefusedNext(ids, id);
  }

  // Any unit, on either reliable channel, inline or fragment, that finds its id left behind or no room: it is
  // acknowledged and not kept, and whatever follows every copy of it comes to nothing.
  lemma AcknowledgedAndLost(limits: Limits, sends: seq<Record>, r: Receiver, log: seq<Delivery>, t: Tally, now: nat,
                            j: nat, i: nat, id: nat, roomy: bool, ids: set<nat>, e: Effect, inputs: seq<Input>,
                            later: nat, roomyLater: bool)
    requires LandOk(sends, r, log, t) && j < |sends| && NumbersFit(sends[j]) && sends[j].WellFormed()
    requires sends[j].channel.IsReliable() && Unambiguous(sends[j]) && i < sends[j].Units() && Unit(j, i) !in t.arrived
    requires 0 < id < U64_LIMIT && Represents(IdsOf(r, sends[j].channel), ids)
    requires !Admits(ids, id) || !Room(limits, r, sends[j], i, roomy)
    requires e == Dispatch(limits, r, now, sends[j].TrackedFrame(i, id), roomy)
    ensures SignalsOf(sends[j].TrackedFrame(i, id)) == [Acknowledge(sends[j].channel, id)]
    ensures !Kept(e, sends[j], i) && R.Consistent(e.r.reassembly)
    ensures var r' := After(limits, e.r, inputs);
      Nothing(r', Dispatch(limits, r', later, sends[j].TrackedFrame(i, id), roomyLater))
  {
    FreshFrameKeptIff(limits, sends, r, log, t, now, j, i, id, roomy, ids, e);
    FrameHasId(sends[j], i, id);
    RefusedAfterwards(limits, r, now, sends[j].TrackedFrame(i, id), id, roomy, ids);
    RefusedForGood(limits, e.r, sends[j], i, id, AcceptInto(ids, id), inputs, later, roomyLater);
  }

  lemma FrameHasId(rec: Record, i: nat, id: nat)
    requires rec.WellFormed() && i < rec.Units() && rec.channel.IsReliable() && 0 < id < U64_LIMIT
    ensures ReadNumbered(rec.TrackedFrame(i, id).data) == Success((id, rec.Body(i)))
  {
    UnitFits(rec, i, id);
    ReadNumberedOfEncode(id, rec.Body(i));
  }

  lemma TurnedAway(limits: Limits, r: Receiver, now: nat, rec: Record, id: nat, roomy: bool, e: Effect)
    requires R.Consistent(r.reassembly) && rec.WellFormed() && NumbersFit(rec) && rec.channel.ReliableOrdered?
    requires !rec.Fragmented() && Unambiguous(rec) && 0 < id < U64_LIMIT && Slide(r.orderedIds, id).1
    requires !O.Held(r.ordered, rec.number) && !Wanted(limits, r, rec)
    requires e == Dispatch(limits, r, now, rec.TrackedFrame(0, id), roomy)
    ensures e == Effect(r.(orderedIds := Slide(r.orderedIds, id).0), [], Ok)
  {
    TrackedFrameLands(limits, r, now, rec, 0, id, roomy);
  }

  // The same for an inline ordered message in any receiver at all: new, not next, and the buffer is full.
  lemma TurnedAwayForGood(limits: Limits, r: Receiver, now: nat, rec: Record, id: nat, roomy: bool, ids: set<nat>,
                          e: Effect, inputs: seq<Input>, later: nat, roomyLater: bool)
    requires R.Consistent(r.reassembly) && rec.WellFormed() && NumbersFit(rec) && rec.channel.ReliableOrdered?
    requires !rec.Fragmented() && Unambiguous(rec) && 0 < id < U64_LIMIT
    requires Represents(r.orderedIds, ids) && Slide(r.orderedIds, id).1
    requires !O.Held(r.ordered, rec.number) && !Wanted(limits, r, rec)
    requires e == Dispatch(limits, r, now, rec.TrackedFrame(0, id), roomy)
    ensures SignalsOf(rec.TrackedFrame(0, id)) == [Acknowledge(ReliableOrdered, id)]
    ensures Nothing(r, e) && R.Consistent(e.r.reassembly)
    ensures var r' := After(limits, e.r, inputs);
      Nothing(r', Dispatch(limits, r', later, rec.TrackedFrame(0, id), roomyLater))
  {
    TurnedAway(limits, r, now, rec, id, roomy, e);
    SlideRefinesSet(r.orderedIds, ids, id);
    RefusedNext(ids, id);
    RefusedForGood(limits, e.r, rec, 0, id, AcceptInto(ids, id), inputs, later, roomyLater);
  }

  // ------------------------------------------------------------------------- instances

  // The message numbered n on the ordered channel, sent under id n.
  function Nth(n: nat): (rec: Record)
    requires 0 < n < 256
    ensures rec.WellFormed() && rec.Units() == 1
  {
    Record(ReliableOrdered, 7, [n], n, 0)
  }

  function FrameOf(n: nat): Message
    requires 0 < n < 256
  {
    Nth(n).TrackedFrame(0, n)
  }

  // What frame n does to a fresh enough receiver.
  lemma NthArrives(limits: Limits, r: Receiver, now: nat, n: nat, e: Effect)
    requires 0 < n < 256 && R.Consistent(r.reassembly) && Slide(r.orderedIds, n).1
    requires e == Dispatch(limits, r, now, FrameOf(n), true)
    ensures e == Deliver(limits, r.(orderedIds := Slide(r.orderedIds, n).0), Delivery(ReliableOrdered, 7, [n]), n)
  {
    TrackedFrameLands(limits, r, now, Nth(n), 0, n, true);
  }

  // With room for one message: 2 is kept, 3 is acknowledged and turned away, 1 releases 1 and 2, and 3 comes again
  // for nothing.
  lemma ThirdIsLost(limits: Limits, now: nat, e2: Effect, e3: Effect, e1: Effect, again: Effect)
    requires limits.orderedWindow == 1 && R.Consistent(FRESH.reassembly)
    requires e2 == Dispatch(limits, FRESH, now, FrameOf(2), true) && R.Consistent(e2.r.reassembly)
    requires e3 == Dispatch(limits, e2.r, now, FrameOf(3), true) && R.Consistent(e3.r.reassembly)
    requires e1 == Dispatch(limits, e3.r, now, FrameOf(1), true) && R.Consistent(e1.r.reassembly)
    requires again == Dispatch(limits, e1.r, now, FrameOf(3), true)
    ensures SignalsOf(FrameOf(3)) == [Acknowledge(ReliableOrdered, 3)]
    ensures e2.out == [] && e3.out == [] && again.out == []
    ensures e1.out == [Delivery(ReliableOrdered, 7, [1]), Delivery(ReliableOrdered, 7, [2])]
    ensures again.r.ordered == O.State(3, map[])
  {
    SecondWaits(limits, now, e2);
    SlideRefinesSet(e2.r.orderedIds, {2}, 3);
    TurnedAwayForGood(limits, e2.r, now, Nth(3), 3, true, {2}, e3, [Frame(FrameOf(1), now, true)], now, true);
    TurnedAway(limits, e2.r, now, Nth(3), 3, true, e3);
    FirstReleases(limits, e3.r, now, AcceptInto({2}, 3), e1);
    AfterOne(limits, e3.r, Frame(FrameOf(1), now, true));
  }

  lemma AfterOne(limits: Limits, r: Receiver, input: Input)
    requires R.Consistent(r.reassembly)
    ensures After(limits, r, [input]) == Taken(limits, r, input)
  {
  }

  lemma SecondWaits(limits: Limits, now: nat, e: Effect)
    requires limits.orderedWindow == 1 && R.Consistent(FRESH.reassembly)
    requires e == Dispatch(limits, FRESH, now, FrameOf(2), true)
    ensures e.out == [] && e.r.ordered == O.State(1, map[2 := O.App(7, [2])]) && Represents(e.r.orderedIds, {2})
    ensures !O.Held(e.r.ordered, 3) && !Wanted(limits, e.r, Nth(3))
  {
    var none: set<nat> := {};
    assert Represents(EMPTY_WINDOW, none);
    NthArrives(limits, FRESH, now, 2, e);
    SlideRefinesSet(EMPTY_WINDOW, none, 2);
    assert AcceptInto(none, 2) == {2};
  }

  lemma FirstReleases(limits: Limits, r: Receiver, now: nat, ids: set<nat>, e: Effect)
    requires R.Consistent(r.reassembly) && Represents(r.orderedIds, ids) && ids == {2, 3}
    requires r.ordered == O.State(1, map[2 := O.App(7, [2])]) && e == Dispatch(limits, r, now, FrameOf(1), true)
    ensures e.out == [Delivery(ReliableOrdered, 7, [1]), Delivery(ReliableOrdered, 7, [2])]
    ensures e.r.ordered == O.State(3, map[])
  {
    SlideRefinesSet(r.orderedIds, ids, 1);
    NthArrives(limits, r, now, 1, e);
  }

  // The packet of message 1 is lost and 65 comes: the retransmission of 1 is acknowledged, there is room for it and it
  // is the next one, and it comes to nothing, for its id is 64 behind.
  lemma FirstIsLeftBehind(limits: Limits, now: nat, e65: Effect, e1: Effect)
    requires limits.orderedWindow >= 1 && R.Consistent(FRESH.reassembly)
    requires e65 == Dispatch(limits, FRESH, now, FrameOf(65), true) && R.Consistent(e65.r.reassembly)
    requires e1 == Dispatch(limits, e65.r, now, FrameOf(1), true)
    ensures SignalsOf(FrameOf(1)) == [Acknowledge(ReliableOrdered, 1)]
    ensures e65.r.ordered.next == 1 && Room(limits, e65.r, Nth(1), 0, true)
    ensures Nothing(e65.r, e1) && !O.Held(e1.r.ordered, 1)
  {
    var none: set<nat> := {};
    assert Represents(EMPTY_WINDOW, none);
    NthArrives(limits, FRESH, now, 65, e65);
    SlideRefinesSet(EMPTY_WINDOW, none, 65);
    assert 65 in AcceptInto(none, 65);
    AlwaysAcknowledged(Nth(1), 0, 1);
    RefusedDoesNothing(limits, e65.r, now, Nth(1), 0, 1, true, AcceptInto(none, 65));
  }
}
