// The fragment reassembler: buffers, received flags, quotas and expiry.
module Reassembly {
  import opened Config
  import opened Fragments
  import opened Sums

  datatype Entry = Entry(
    deliverySequence: nat, channel: Channel, kind: byte, count: nat, length: nat,
    receivedCount: nat, lastUpdateMs: nat, payload: seq<byte>, received: seq<bool>)

  // A whole message, as the sender split it and as the receiver hands it on.
  datatype Whole = Whole(messageId: nat, deliverySequence: nat, channel: Channel, kind: byte, payload: seq<byte>)

  datatype State = State(entries: map<nat, Entry>, memory: nat)

  const EMPTY := State(map[], 0)

  datatype Outcome =
    | Rejected(error: Errc)
    | Duplicate
    | Stored
    | Completed(message: Whole)
    | Refused(message: Whole)   // complete, but the completion callback failed

  function Trues(flags: seq<bool>): nat {
    if flags == [] then 0 else Trues(flags[..|flags| - 1]) + (if flags[|flags| - 1] then 1 else 0)
  }

  ghost predicate WellFormed(e: Entry) {
    |e.payload| == e.length && |e.received| == e.count && e.receivedCount == Trues(e.received)
  }

  ghost function Lengths(entries: map<nat, Entry>): map<nat, nat> {
    map id | id in entries :: entries[id].length
  }

  // memory_bytes is the sum of the buffers' lengths.
  ghost predicate Consistent(st: State) {
    && st.memory == Sum(Lengths(st.entries))
    && forall id | id in st.entries :: WellFormed(st.entries[id])
  }

  // The per-peer limits.
  ghost predicate WithinQuota(cfg: FragmentationConfig, st: State) {
    |st.entries| <= cfg.maxConcurrentReassemblies && st.memory <= cfg.maxReassemblyMemory
  }

  // ------------------------------------------------------------------ operations

  function Check(cfg: FragmentationConfig, f: Fragment): Status {
    if !cfg.enabled then Err(StateError)
    else if f.count > cfg.maxFragmentsPerMessage || f.length > cfg.maxReassembledMessageBytes then Err(TooLarge)
    else if f.count == 0 || f.index >= f.count then Err(BadPacket)
    else if |f.data| != Size(f.length, f.index) then Err(BadPacket)
    else if !f.channel.IsApplication() then Err(BadPacket)
    else Ok
  }

  function NewEntry(now: nat, f: Fragment): (e: Entry)
    ensures WellFormed(e)
  {
    NoTrues(f.count);
    Entry(f.deliverySequence, f.channel, f.kind, f.count, f.length, 0, now,
          seq(f.length, _ => 0), seq(f.count, _ => false))
  }

  lemma {:induction false} NoTrues(n: nat)
    ensures Trues(seq(n, _ => false)) == 0
  {
    if n > 0 {
      NoTrues(n - 1);
      assert seq(n, _ => false)[..n - 1] == seq(n - 1, _ => false);
    }
  }

  predicate SameSet(e: Entry, f: Fragment) {
    e.deliverySequence == f.deliverySequence && e.channel == f.channel && e.kind == f.kind &&
    e.count == f.count && e.length == f.length
  }

  // The entry after the fragment's bytes are copied in.
  function Place(e: Entry, f: Fragment, now: nat): Entry
    requires |e.received| == e.count && f.index < e.count && Offset(f.index) + |f.data| <= |e.payload|
  {
    e.(payload := e.payload[..Offset(f.index)] + f.data + e.payload[Offset(f.index) + |f.data|..],
       received := e.received[f.index := true],
       receivedCount := e.receivedCount + 1,
       lastUpdateMs := now)
  }

  function MessageOf(id: nat, e: Entry): Whole {
    Whole(id, e.deliverySequence, e.channel, e.kind, e.payload)
  }

  // accept() once the entry exists.
  function Store(st: State, f: Fragment, now: nat, deliver: Whole -> bool): (State, Outcome)
    requires Consistent(st) && f.messageId in st.entries && f.index < f.count
  {
    var id := f.messageId;
    var e := st.entries[id];
    if !SameSet(e, f) then (st, Rejected(BadPacket))
    else if e.received[f.index] then
      (st.(entries := st.entries[id := e.(lastUpdateMs := now)]), Duplicate)
    else if Offset(f.index) + |f.data| > |e.payload| then (st, Rejected(BadPacket))
    else
      var e' := Place(e, f, now);
      if e'.receivedCount != e'.count then (st.(entries := st.entries[id := e']), Stored)
      else if deliver(MessageOf(id, e')) then
        SumBound(Lengths(st.entries), id);
        (State(st.entries - {id}, st.memory - e.length), Completed(MessageOf(id, e')))
      else (st.(entries := st.entries[id := e']), Refused(MessageOf(id, e')))
  }

  function Open(st: State, f: Fragment, now: nat): (st': State)
    requires Consistent(st) && f.messageId !in st.entries
    ensures Consistent(st')
  {
    var e := NewEntry(now, f);
    var entries := st.entries[f.messageId := e];
    SumInsert(Lengths(st.entries), f.messageId, f.length);
    assert Lengths(entries) == Lengths(st.entries)[f.messageId := f.length];
    State(entries, st.memory + f.length)
  }

  function AcceptFragment(cfg: FragmentationConfig, st: State, now: nat, f: Fragment, deliver: Whole -> bool)
    : (State, Outcome)
    requires Consistent(st)
  {
    var rc := Check(cfg, f);
    if rc.Err? then (st, Rejected(rc.error))
    else if f.messageId in st.entries then Store(st, f, now, deliver)
    else if |st.entries| >= cfg.maxConcurrentReassemblies then (st, Rejected(QueueFull))
    else if st.memory + f.length > cfg.maxReassemblyMemory then (st, Rejected(QueueFull))
    else Store(Open(st, f, now), f, now, deliver)
  }

  predicate Fresh(cfg: FragmentationConfig, e: Entry, now: nat) { now < e.lastUpdateMs + cfg.reassemblyTimeoutMs }

  // expire_old(): what is left.
  ghost function Unexpired(cfg: FragmentationConfig, st: State, now: nat): State {
    var kept := map id | id in st.entries && Fresh(cfg, st.entries[id], now) :: st.entries[id];
    State(kept, Sum(Lengths(kept)))
  }

  // --------------------------------------------------- accounting and quotas hold

  lemma ReplaceKeepsLengths(entries: map<nat, Entry>, id: nat, e: Entry)
    requires id in entries && e.length == entries[id].length
    ensures Lengths(entries[id := e]) == Lengths(entries)
  {
  }

  lemma {:induction false} TruesUpdate(flags: seq<bool>, i: nat)
    requires i < |flags| && !flags[i]
    ensures Trues(flags[i := true]) == Trues(flags) + 1
  {
    var n := |flags| - 1;
    if i < n {
      TruesUpdate(flags[..n], i);
      assert flags[i := true][..n] == flags[..n][i := true];
    } else {
      assert flags[i := true][..n] == flags[..n];
    }
  }

  lemma ReplaceConsistent(st: State, id: nat, e: Entry, st': State)
    requires Consistent(st) && id in st.entries && WellFormed(e) && e.length == st.entries[id].length
    requires st' == st.(entries := st.entries[id := e])
    ensures Consistent(st') && |st'.entries| == |st.entries|
  {
    ReplaceKeepsLengths(st.entries, id, e);
    assert st'.entries.Keys == st.entries.Keys;
    assert |st'.entries| == |st'.entries.Keys| && |st.entries| == |st.entries.Keys|;
  }

  lemma DropConsistent(st: State, id: nat)
    requires Consistent(st) && id in st.entries
    ensures st.entries[id].length <= st.memory && |st.entries - {id}| <= |st.entries|
    ensures Consistent(State(st.entries - {id}, st.memory - st.entries[id].length))
  {
    SumSplit(Lengths(st.entries), id);
    assert Lengths(st.entries - {id}) == Lengths(st.entries) - {id};
    assert st.entries.Keys == (st.entries - {id}).Keys + {id};
  }

  lemma StoreKeepsValid(st: State, f: Fragment, now: nat, deliver: Whole -> bool)
    requires Consistent(st) && f.messageId in st.entries && f.index < f.count
    ensures var st' := Store(st, f, now, deliver).0;
      Consistent(st') && |st'.entries| <= |st.entries| && st'.memory <= st.memory
  {
    var id := f.messageId;
    var e := st.entries[id];
    var touched := e.(lastUpdateMs := now);
    ReplaceConsistent(st, id, touched, st.(entries := st.entries[id := touched]));
    if SameSet(e, f) && !e.received[f.index] && Offset(f.index) + |f.data| <= |e.payload| {
      var placed := Place(e, f, now);
      TruesUpdate(e.received, f.index);
      ReplaceConsistent(st, id, placed, st.(entries := st.entries[id := placed]));
      DropConsistent(st, id);
    }
  }

  // A fragment the codec accepted never runs past its entry's buffer: that branch of accept() is dead.
  lemma OverrunUnreachable(s: seq<byte>, f: Fragment, e: Entry)
    requires ReadFragment(s) == Success(f) && WellFormed(e) && SameSet(e, f)
    ensures Offset(f.index) + |f.data| <= |e.payload|
  {
    FragmentRoundTrip(s, f);
    Layout(f.length, f.index);
  }

  // accept() keeps the memory count equal to the sum of the buffers and never passes the two limits.
  lemma AcceptKeepsQuota(cfg: FragmentationConfig, st: State, now: nat, f: Fragment, deliver: Whole -> bool)
    requires Consistent(st) && WithinQuota(cfg, st)
    ensures var st' := AcceptFragment(cfg, st, now, f, deliver).0;
      && Consistent(st') && WithinQuota(cfg, st')
      && st'.memory <= st.memory + (if f.messageId in st.entries then 0 else f.length)
  {
    if Check(cfg, f).Ok? {
      if f.messageId in st.entries {
        StoreKeepsValid(st, f, now, deliver);
      } else if |st.entries| < cfg.maxConcurrentReassemblies && st.memory + f.length <= cfg.maxReassemblyMemory {
        var st1 := Open(st, f, now);
        assert st1.entries.Keys == st.entries.Keys + {f.messageId};
        StoreKeepsValid(st1, f, now, deliver);
      }
    }
  }

  lemma {:induction false} SumSubset(a: map<nat, nat>, b: map<nat, nat>)
    requires forall k | k in a :: k in b && a[k] == b[k]
    ensures Sum(a) <= Sum(b)
    decreases |a|
  {
    if a != map[] {
      var k :| k in a;
      SumSplit(a, k);
      SumSplit(b, k);
      SumSubset(a - {k}, b - {k});
    }
  }

  lemma {:induction false} SubsetCard(a: set<nat>, b: set<nat>)
    requires a <= b
    ensures |a| <= |b|
  {
    if a != {} {
      var k :| k in a;
      SubsetCard(a - {k}, b - {k});
    }
  }

  lemma ExpiryKeepsQuota(cfg: FragmentationConfig, st: State, now: nat)
    requires Consistent(st) && WithinQuota(cfg, st)
    ensures Consistent(Unexpired(cfg, st, now)) && WithinQuota(cfg, Unexpired(cfg, st, now))
    ensures Unexpired(cfg, st, now).memory <= st.memory
  {
    var st' := Unexpired(cfg, st, now);
    SumSubset(Lengths(st'.entries), Lengths(st.entries));
    SubsetCard(st'.entries.Keys, st.entries.Keys);
  }

  // ------------------------------------------ the buffers hold the sender's bytes

  predicate Splittable(m: Whole) { 0 < |m.payload| < U16_LIMIT && m.channel.IsApplication() }

  // Fragment number `index` of a message, as the sender cuts it.
  function FragmentOf(m: Whole, index: nat): Fragment
    requires Splittable(m) && index < Count(|m.payload|)
  {
    Fragment(m.messageId, m.deliverySequence, m.channel, m.kind, index,
             Count(|m.payload|), |m.payload|, Slice(m.payload, index))
  }

  ghost predicate Holds(e: Entry, m: Whole, index: nat)
    requires Splittable(m) && |e.payload| == |m.payload| && index < Count(|m.payload|)
  {
    Layout(|m.payload|, index);
    e.payload[Offset(index)..Offset(index) + Size(|m.payload|, index)] == Slice(m.payload, index)
  }

  // The entry is a partial copy of the message.
  ghost predicate Faithful(e: Entry, m: Whole)
    requires Splittable(m)
  {
    && WellFormed(e)
    && e.deliverySequence == m.deliverySequence && e.channel == m.channel && e.kind == m.kind
    && e.length == |m.payload| && e.count == Count(|m.payload|)
    && forall i | 0 <= i < e.count && e.received[i] :: Holds(e, m, i)
  }

  lemma PlaceFits(e: Entry, m: Whole, i: nat)
    requires Splittable(m) && Faithful(e, m) && i < Count(|m.payload|)
    ensures Offset(i) + |FragmentOf(m, i).data| <= |e.payload|
  {
    Layout(|m.payload|, i);
  }

  lemma DisjointFragments(length: nat, i: nat, j: nat)
    requires length < U16_LIMIT && i < j < Count(length)
    ensures Offset(i) + Size(length, i) <= Offset(j)
  {
    Layout(length, i);
  }

  // Writing `data` at `off` changes nothing outside and leaves the data inside.
  lemma Overwrite(s: seq<byte>, off: nat, data: seq<byte>, a: nat, b: nat)
    requires off + |data| <= |s| && a <= b <= |s|
    ensures b <= off || off + |data| <= a ==> (s[..off] + data + s[off + |data|..])[a..b] == s[a..b]
    ensures a == off && b == off + |data| ==> (s[..off] + data + s[off + |data|..])[a..b] == data
  {
  }

  lemma HoldsAfter(e: Entry, m: Whole, i: nat, now: nat, j: nat, e': Entry)
    requires Splittable(m) && Faithful(e, m) && i < Count(|m.payload|) && j < Count(|m.payload|)
    requires Offset(i) + |FragmentOf(m, i).data| <= |e.payload| && (j == i || e.received[j])
    requires e' == Place(e, FragmentOf(m, i), now)
    ensures |e'.payload| == |m.payload| && Holds(e', m, j)
  {
    var f, n := FragmentOf(m, i), |m.payload|;
    Layout(n, i);
    Layout(n, j);
    if j < i { DisjointFragments(n, j, i); } else if i < j { DisjointFragments(n, i, j); }
    if j != i { assert Holds(e, m, j); }
    Overwrite(e.payload, Offset(i), f.data, Offset(j), Offset(j) + Size(n, j));
  }

  lemma PlaceIsFaithful(e: Entry, m: Whole, i: nat, now: nat)
    requires Splittable(m) && Faithful(e, m) && i < Count(|m.payload|) && !e.received[i]
    requires Offset(i) + |FragmentOf(m, i).data| <= |e.payload|
    ensures Faithful(Place(e, FragmentOf(m, i), now), m)
  {
    var e' := Place(e, FragmentOf(m, i), now);
    TruesUpdate(e.received, i);
    HoldsAfter(e, m, i, now, i, e');
    forall j | 0 <= j < e'.count && e'.received[j] ensures Holds(e', m, j) { HoldsAfter(e, m, i, now, j, e'); }
  }

  lemma {:induction false} TruesAll(flags: seq<bool>)
    ensures Trues(flags) <= |flags|
    ensures Trues(flags) == |flags| <==> forall i | 0 <= i < |flags| :: flags[i]
  {
    if flags != [] {
      var n := |flags| - 1;
      TruesAll(flags[..n]);
      assert (forall i | 0 <= i < |flags| :: flags[i]) <==>
        (forall i | 0 <= i < n :: flags[..n][i]) && flags[n];
    }
  }

  lemma Home(length: nat, p: nat) returns (home: nat)
    requires p < length < U16_LIMIT
    ensures home < Count(length) && Offset(home) <= p < Offset(home) + Size(length, home) <= length
  {
    home := p / MAX_FRAGMENT_DATA_BYTES;
    HomeOf(length, p, home);
    Layout(length, home);
  }

  lemma FullByte(e: Entry, m: Whole, p: nat)
    requires Splittable(m) && Faithful(e, m) && p < |m.payload|
    requires forall i | 0 <= i < |e.received| :: e.received[i]
    ensures e.payload[p] == m.payload[p]
  {
    var home := Home(|m.payload|, p);
    assert Holds(e, m, home);
    SameByte(e.payload, m.payload, Offset(home), Offset(home) + Size(|m.payload|, home), p);
  }

  lemma SameByte(s: seq<byte>, t: seq<byte>, a: nat, b: nat, p: nat)
    requires a <= p < b <= |s| && b <= |t| && s[a..b] == t[a..b]
    ensures s[p] == t[p]
  {
    assert s[a..b][p - a] == t[a..b][p - a];
  }

  // A full entry is the message, byte for byte.
  lemma FullIsWhole(e: Entry, m: Whole)
    requires Splittable(m) && Faithful(e, m) && e.receivedCount == e.count
    ensures e.payload == m.payload
  {
    TruesAll(e.received);
    forall p | 0 <= p < |m.payload| ensures e.payload[p] == m.payload[p] { FullByte(e, m, p); }
  }

  // ------------------------------- the reassembler refines sets of received indices

  // The simple form: which indices of a message have arrived, and when the last one did.
  datatype Partial = Partial(have: set<nat>, lastUpdateMs: nat)

  ghost predicate HasAll(have: set<nat>, m: Whole) { forall j: nat | j < Count(|m.payload|) :: j in have }

  ghost predicate KnownMessages(originals: map<nat, Whole>) {
    forall id | id in originals :: originals[id].messageId == id && Splittable(originals[id])
  }

  ghost function Footprint(originals: map<nat, Whole>, parts: map<nat, Partial>): map<nat, nat>
    requires parts.Keys <= originals.Keys
  {
    map id | id in parts :: |originals[id].payload|
  }

  // accept() on the simple form: fragment `index` of the message with this id arrives.
  ghost function Collect(cfg: FragmentationConfig, originals: map<nat, Whole>, parts: map<nat, Partial>, now: nat,
                         id: nat, index: nat, deliver: Whole -> bool): (map<nat, Partial>, Outcome)
    requires id in originals && parts.Keys <= originals.Keys
  {
    var m := originals[id];
    var have := if id in parts then parts[id].have else {};
    if !cfg.enabled then (parts, Rejected(StateError))
    else if Count(|m.payload|) > cfg.maxFragmentsPerMessage || |m.payload| > cfg.maxReassembledMessageBytes then
      (parts, Rejected(TooLarge))
    else if id !in parts && (|parts| >= cfg.maxConcurrentReassemblies ||
                             Sum(Footprint(originals, parts)) + |m.payload| > cfg.maxReassemblyMemory) then
      (parts, Rejected(QueueFull))
    else Gather(parts, m, have, now, index, deliver)
  }

  ghost function Gather(parts: map<nat, Partial>, m: Whole, have: set<nat>, now: nat, index: nat,
                        deliver: Whole -> bool): (map<nat, Partial>, Outcome)
  {
    var id := m.messageId;
    if index in have then (parts[id := Partial(have, now)], Duplicate)
    else if !HasAll(have + {index}, m) then (parts[id := Partial(have + {index}, now)], Stored)
    else if deliver(m) then (parts - {id}, Completed(m))
    else (parts[id := Partial(have + {index}, now)], Refused(m))
  }

  ghost predicate EntryMirrors(e: Entry, p: Partial, m: Whole) {
    && Splittable(m) && Faithful(e, m)
    && p == Partial((set i: nat | i < e.count && e.received[i]), e.lastUpdateMs)
  }

  ghost predicate Mirrors(st: State, parts: map<nat, Partial>, originals: map<nat, Whole>) {
    && KnownMessages(originals) && Consistent(st)
    && st.entries.Keys == parts.Keys <= originals.Keys
    && forall id | id in parts :: EntryMirrors(st.entries[id], parts[id], originals[id])
  }

  lemma MirrorsFootprint(st: State, parts: map<nat, Partial>, originals: map<nat, Whole>)
    requires Mirrors(st, parts, originals)
    ensures st.memory == Sum(Footprint(originals, parts)) && |st.entries| == |parts|
  {
    assert Lengths(st.entries) == Footprint(originals, parts) by {
      forall id | id in parts ensures st.entries[id].length == |originals[id].payload| {
        assert EntryMirrors(st.entries[id], parts[id], originals[id]);
      }
    }
    assert |st.entries| == |st.entries.Keys| == |parts.Keys| == |parts|;
  }

  lemma PlaceMirrors(e: Entry, p: Partial, m: Whole, i: nat, now: nat)
    requires EntryMirrors(e, p, m) && i < Count(|m.payload|) && !e.received[i]
    requires Offset(i) + |FragmentOf(m, i).data| <= |e.payload|
    ensures var e' := Place(e, FragmentOf(m, i), now);
      && EntryMirrors(e', Partial(p.have + {i}, now), m)
      && (e'.receivedCount == e'.count <==> HasAll(p.have + {i}, m))
  {
    PlaceIsFaithful(e, m, i, now);
    var e' := Place(e, FragmentOf(m, i), now);
    TruesAll(e'.received);
    assert p.have + {i} == set j: nat | j < e'.count && e'.received[j];
    assert forall j: nat | j < e'.count :: j in p.have + {i} <==> e'.received[j];
  }

  // Changing one mirrored entry, or dropping it, leaves the others mirrored.
  lemma ReplaceMirrors(st: State, parts: map<nat, Partial>, originals: map<nat, Whole>, id: nat, e: Entry, p: Partial)
    requires Mirrors(st, parts, originals) && id in parts && EntryMirrors(e, p, originals[id])
    ensures Mirrors(st.(entries := st.entries[id := e]), parts[id := p], originals)
  {
    assert EntryMirrors(st.entries[id], parts[id], originals[id]);
    ReplaceKeepsLengths(st.entries, id, e);
  }

  lemma DropMirrors(st: State, parts: map<nat, Partial>, originals: map<nat, Whole>, id: nat)
    requires Mirrors(st, parts, originals) && id in parts
    ensures st.entries[id].length <= st.memory
    ensures Mirrors(State(st.entries - {id}, st.memory - st.entries[id].length), parts - {id}, originals)
  {
    DropConsistent(st, id);
  }

  // A state of the reassembler with its verdict, and the same on the simple form.
  ghost predicate InStep(done: (State, Outcome), simple: (map<nat, Partial>, Outcome), originals: map<nat, Whole>) {
    done.1 == simple.1 && Mirrors(done.0, simple.0, originals)
  }

  lemma PlacedInStep(st: State, parts: map<nat, Partial>, originals: map<nat, Whole>, now: nat, id: nat, i: nat,
                     deliver: Whole -> bool)
    requires Mirrors(st, parts, originals) && id in parts && i < Count(|originals[id].payload|)
    requires EntryMirrors(st.entries[id], parts[id], originals[id]) && !st.entries[id].received[i]
    ensures InStep(Store(st, FragmentOf(originals[id], i), now, deliver),
                   Gather(parts, originals[id], parts[id].have, now, i, deliver), originals)
  {
    var m := originals[id];
    var e := st.entries[id];
    PlaceFits(e, m, i);
    var e' := Place(e, FragmentOf(m, i), now);
    PlaceMirrors(e, parts[id], m, i, now);
    ReplaceMirrors(st, parts, originals, id, e', Partial(parts[id].have + {i}, now));
    DropMirrors(st, parts, originals, id);
    if e'.receivedCount == e'.count { FullIsWhole(e', m); }
  }

  lemma StoreRefinesCollect(st: State, parts: map<nat, Partial>, originals: map<nat, Whole>, now: nat, id: nat, i: nat,
                            deliver: Whole -> bool)
    requires Mirrors(st, parts, originals) && id in parts && i < Count(|originals[id].payload|)
    ensures InStep(Store(st, FragmentOf(originals[id], i), now, deliver),
                   Gather(parts, originals[id], parts[id].have, now, i, deliver), originals)
  {
    var e := st.entries[id];
    assert EntryMirrors(e, parts[id], originals[id]);
    if e.received[i] {
      ReplaceMirrors(st, parts, originals, id, e.(lastUpdateMs := now), Partial(parts[id].have, now));
    } else {
      PlacedInStep(st, parts, originals, now, id, i, deliver);
    }
  }

  lemma OpenMirrors(st: State, parts: map<nat, Partial>, originals: map<nat, Whole>, now: nat, id: nat, i: nat)
    requires Mirrors(st, parts, originals) && id in originals && id !in parts
    requires i < Count(|originals[id].payload|)
    ensures Mirrors(Open(st, FragmentOf(originals[id], i), now), parts[id := Partial({}, now)], originals)
  {
    var st' := Open(st, FragmentOf(originals[id], i), now);
    assert EntryMirrors(st'.entries[id], Partial({}, now), originals[id]);
  }

  lemma GatherForgets(parts: map<nat, Partial>, m: Whole, p: Partial, have: set<nat>, now: nat, i: nat,
                      deliver: Whole -> bool)
    ensures Gather(parts[m.messageId := p], m, have, now, i, deliver) == Gather(parts, m, have, now, i, deliver)
  {
    var id := m.messageId;
    var parts1 := parts[id := p];
    assert parts1 - {id} == parts - {id};
    assert parts1[id := Partial(have, now)] == parts[id := Partial(have, now)];
    assert parts1[id := Partial(have + {i}, now)] == parts[id := Partial(have + {i}, now)];
  }

  // The first fragment of a message: the entry is opened, then the fragment stored in it.
  lemma FirstRefinesCollect(st: State, parts: map<nat, Partial>, originals: map<nat, Whole>, now: nat, id: nat, i: nat,
                            deliver: Whole -> bool)
    requires Mirrors(st, parts, originals) && id in originals && id !in parts
    requires i < Count(|originals[id].payload|)
    ensures var f := FragmentOf(originals[id], i);
      InStep(Store(Open(st, f, now), f, now, deliver), Gather(parts, originals[id], {}, now, i, deliver), originals)
  {
    OpenMirrors(st, parts, originals, now, id, i);
    var st1, parts1 := Open(st, FragmentOf(originals[id], i), now), parts[id := Partial({}, now)];
    StoreRefinesCollect(st1, parts1, originals, now, id, i, deliver);
    GatherForgets(parts, originals[id], Partial({}, now), {}, now, i, deliver);
  }

  lemma CheckOfFragment(cfg: FragmentationConfig, m: Whole, i: nat)
    requires Splittable(m) && i < Count(|m.payload|)
    ensures Check(cfg, FragmentOf(m, i)) ==
      if !cfg.enabled then Err(StateError)
      else if Count(|m.payload|) > cfg.maxFragmentsPerMessage || |m.payload| > cfg.maxReassembledMessageBytes then
        Err(TooLarge)
      else Ok
  {
  }

  lemma KnownInStep(cfg: FragmentationConfig, st: State, parts: map<nat, Partial>, originals: map<nat, Whole>, now: nat,
                    id: nat, i: nat, deliver: Whole -> bool)
    requires Mirrors(st, parts, originals) && id in parts && i < Count(|originals[id].payload|)
    requires Check(cfg, FragmentOf(originals[id], i)).Ok?
    ensures InStep(AcceptFragment(cfg, st, now, FragmentOf(originals[id], i), deliver),
                   Collect(cfg, originals, parts, now, id, i, deliver), originals)
  {
    CheckOfFragment(cfg, originals[id], i);
    StoreRefinesCollect(st, parts, originals, now, id, i, deliver);
  }

  predicate Roomy(cfg: FragmentationConfig, concurrent: nat, memory: nat, bytes: nat) {
    concurrent < cfg.maxConcurrentReassemblies && memory + bytes <= cfg.maxReassemblyMemory
  }

  lemma AcceptNew(cfg: FragmentationConfig, st: State, now: nat, f: Fragment, deliver: Whole -> bool)
    requires Consistent(st) && f.messageId !in st.entries && Check(cfg, f).Ok?
    ensures AcceptFragment(cfg, st, now, f, deliver) ==
      if Roomy(cfg, |st.entries|, st.memory, f.length) then Store(Open(st, f, now), f, now, deliver)
      else (st, Rejected(QueueFull))
  {
  }

  lemma CollectNew(cfg: FragmentationConfig, originals: map<nat, Whole>, parts: map<nat, Partial>, now: nat, id: nat,
                   i: nat, deliver: Whole -> bool)
    requires id in originals && parts.Keys <= originals.Keys && id !in parts && cfg.enabled
    requires Count(|originals[id].payload|) <= cfg.maxFragmentsPerMessage
    requires |originals[id].payload| <= cfg.maxReassembledMessageBytes
    ensures Collect(cfg, originals, parts, now, id, i, deliver) ==
      if Roomy(cfg, |parts|, Sum(Footprint(originals, parts)), |originals[id].payload|) then
        Gather(parts, originals[id], {}, now, i, deliver)
      else (parts, Rejected(QueueFull))
  {
  }

  lemma NewInStep(cfg: FragmentationConfig, st: State, parts: map<nat, Partial>, originals: map<nat, Whole>, now: nat,
                  id: nat, i: nat, deliver: Whole -> bool)
    requires Mirrors(st, parts, originals) && id in originals && id !in parts && i < Count(|originals[id].payload|)
    requires Check(cfg, FragmentOf(originals[id], i)).Ok?
    ensures InStep(AcceptFragment(cfg, st, now, FragmentOf(originals[id], i), deliver),
                   Collect(cfg, originals, parts, now, id, i, deliver), originals)
  {
    CheckOfFragment(cfg, originals[id], i);
    MirrorsFootprint(st, parts, originals);
    AcceptNew(cfg, st, now, FragmentOf(originals[id], i), deliver);
    CollectNew(cfg, originals, parts, now, id, i, deliver);
    FirstRefinesCollect(st, parts, originals, now, id, i, deliver);
  }

  // accept() completes a message exactly when its last missing fragment arrives, and then hands over
  // the original; every other verdict is the simple form's too.
  lemma AcceptRefinesCollect(cfg: FragmentationConfig, st: State, parts: map<nat, Partial>, originals: map<nat, Whole>,
                             now: nat, id: nat, i: nat, deliver: Whole -> bool)
    requires Mirrors(st, parts, originals) && id in originals && i < Count(|originals[id].payload|)
    ensures InStep(AcceptFragment(cfg, st, now, FragmentOf(originals[id], i), deliver),
                   Collect(cfg, originals, parts, now, id, i, deliver), originals)
  {
    if Check(cfg, FragmentOf(originals[id], i)).Err? {
      CheckOfFragment(cfg, originals[id], i);
    } else if id in parts {
      KnownInStep(cfg, st, parts, originals, now, id, i, deliver);
    } else {
      NewInStep(cfg, st, parts, originals, now, id, i, deliver);
    }
  }

  lemma CollectLone(cfg: FragmentationConfig, now: nat, m: Whole, deliver: Whole -> bool)
    requires Count(|m.payload|) == 1 && deliver(m)
    requires cfg.Valid() && cfg.enabled && |m.payload| <= cfg.maxReassembledMessageBytes
    ensures Collect(cfg, map[m.messageId := m], map[], now, m.messageId, 0, deliver).1 == Completed(m)
  {
    assert Footprint(map[m.messageId := m], map[]) == map[];
    assert HasAll({} + {0}, m);
  }

  lemma NothingMirrored(originals: map<nat, Whole>)
    requires KnownMessages(originals)
    ensures Mirrors(EMPTY, map[], originals)
  {
    assert Lengths(map[]) == map[];
  }

  // A message of one fragment completes as soon as the fragment comes.
  lemma LoneFragmentCompletes(cfg: FragmentationConfig, now: nat, m: Whole, deliver: Whole -> bool)
    requires Splittable(m) && Count(|m.payload|) == 1 && deliver(m)
    requires cfg.Valid() && cfg.enabled && |m.payload| <= cfg.maxReassembledMessageBytes
    ensures Consistent(EMPTY)
    ensures AcceptFragment(cfg, EMPTY, now, FragmentOf(m, 0), deliver).1 == Completed(m)
  {
    var originals := map[m.messageId := m];
    NothingMirrored(originals);
    CollectLone(cfg, now, m, deliver);
    AcceptRefinesCollect(cfg, EMPTY, map[], originals, now, m.messageId, 0, deliver);
  }

  ghost function Remaining(cfg: FragmentationConfig, parts: map<nat, Partial>, now: nat): map<nat, Partial> {
    map id | id in parts && now < parts[id].lastUpdateMs + cfg.reassemblyTimeoutMs :: parts[id]
  }

  // Any interleaving of the fragments of any number of messages, with expiry anywhere in between.
  datatype Event = Arrive(now: nat, id: nat, index: nat) | Expire(now: nat)

  ghost predicate Legal(originals: map<nat, Whole>, events: seq<Event>) {
    forall e | e in events && e.Arrive? :: e.id in originals && e.index < Count(|originals[e.id].payload|)
  }

  ghost function RunReal(cfg: FragmentationConfig, originals: map<nat, Whole>, deliver: Whole -> bool,
                         events: seq<Event>): (r: (State, seq<Outcome>))
    requires KnownMessages(originals) && Legal(originals, events)
    ensures Consistent(r.0)
  {
    if events == [] then (EMPTY, [])
    else
      var (st, outs) := RunReal(cfg, originals, deliver, events[..|events| - 1]);
      var last := events[|events| - 1];
      match last
      case Arrive(now, id, index) =>
        var f := FragmentOf(originals[id], index);
        AcceptKeepsValid(cfg, st, now, f, deliver);
        var (st', out) := AcceptFragment(cfg, st, now, f, deliver);
        (st', outs + [out])
      case Expire(now) => (Unexpired(cfg, st, now), outs)
  }

  lemma AcceptKeepsValid(cfg: FragmentationConfig, st: State, now: nat, f: Fragment, deliver: Whole -> bool)
    requires Consistent(st)
    ensures Consistent(AcceptFragment(cfg, st, now, f, deliver).0)
  {
    if Check(cfg, f).Ok? {
      if f.messageId in st.entries {
        StoreKeepsValid(st, f, now, deliver);
      } else {
        StoreKeepsValid(Open(st, f, now), f, now, deliver);
      }
    }
  }

  ghost function RunSimple(cfg: FragmentationConfig, originals: map<nat, Whole>, deliver: Whole -> bool,
                           events: seq<Event>): (r: (map<nat, Partial>, seq<Outcome>))
    requires KnownMessages(originals) && Legal(originals, events)
    ensures r.0.Keys <= originals.Keys
  {
    if events == [] then (map[], [])
    else
      var (parts, outs) := RunSimple(cfg, originals, deliver, events[..|events| - 1]);
      var last := events[|events| - 1];
      match last
      case Arrive(now, id, index) =>
        var (parts', out) := Collect(cfg, originals, parts, now, id, index, deliver);
        (parts', outs + [out])
      case Expire(now) => (Remaining(cfg, parts, now), outs)
  }

  lemma ExpiryMirrors(cfg: FragmentationConfig, st: State, parts: map<nat, Partial>, originals: map<nat, Whole>,
                      now: nat)
    requires Mirrors(st, parts, originals)
    ensures Mirrors(Unexpired(cfg, st, now), Remaining(cfg, parts, now), originals)
  {
    forall id | id in parts
      ensures Fresh(cfg, st.entries[id], now) <==> now < parts[id].lastUpdateMs + cfg.reassemblyTimeoutMs
    {
      assert EntryMirrors(st.entries[id], parts[id], originals[id]);
    }
  }

  // Over a whole run the verdicts are those of the sets, so every message handed over is the original.
  lemma {:induction false} RunRefinesSimple(cfg: FragmentationConfig, originals: map<nat, Whole>,
                                            deliver: Whole -> bool, events: seq<Event>)
    requires KnownMessages(originals) && Legal(originals, events)
    ensures RunReal(cfg, originals, deliver, events).1 == RunSimple(cfg, originals, deliver, events).1
    ensures Mirrors(RunReal(cfg, originals, deliver, events).0, RunSimple(cfg, originals, deliver, events).0, originals)
  {
    if events == [] {
      assert Lengths(map[]) == map[];
    } else {
      var before := events[..|events| - 1];
      RunRefinesSimple(cfg, originals, deliver, before);
      var st, parts := RunReal(cfg, originals, deliver, before).0, RunSimple(cfg, originals, deliver, before).0;
      match events[|events| - 1]
      case Arrive(now, id, index) => AcceptRefinesCollect(cfg, st, parts, originals, now, id, index, deliver);
      case Expire(now) => ExpiryMirrors(cfg, st, parts, originals, now);
    }
  }

  // `st` is what is left of `before` once the keys outside `todo` have been looked at.
  ghost predicate Swept(cfg: FragmentationConfig, before: State, st: State, todo: set<nat>, now: nat) {
    && Consistent(st) && todo <= st.entries.Keys <= before.entries.Keys
    && (forall id | id in st.entries :: st.entries[id] == before.entries[id])
    && (forall id | id in before.entries && id !in todo :: id in st.entries <==> Fresh(cfg, before.entries[id], now))
  }

  lemma SweepOne(cfg: FragmentationConfig, before: State, st: State, todo: set<nat>, now: nat, id: nat)
    requires Swept(cfg, before, st, todo, now) && id in todo
    ensures Fresh(cfg, st.entries[id], now) ==> Swept(cfg, before, st, todo - {id}, now)
    ensures st.entries[id].length <= st.memory
    ensures !Fresh(cfg, st.entries[id], now) ==>
      Swept(cfg, before, State(st.entries - {id}, st.memory - st.entries[id].length), todo - {id}, now)
  {
    DropConsistent(st, id);
  }

  lemma SweptAll(cfg: FragmentationConfig, before: State, st: State, now: nat)
    requires Swept(cfg, before, st, {}, now)
    ensures st == Unexpired(cfg, before, now)
  {
    assert st.entries == Unexpired(cfg, before, now).entries;
  }

  // ----------------------------------------------------------------------- class

  class FragmentReassembler {
    var cfg: FragmentationConfig
    var entries: map<nat, Entry>
    var memoryBytes: nat

    ghost function Value(): State reads this { State(entries, memoryBytes) }

    ghost predicate Valid() reads this { Consistent(Value()) && WithinQuota(cfg, Value()) }

    constructor (cfg: FragmentationConfig)
      ensures Valid() && this.cfg == cfg && Value() == EMPTY
    {
      this.cfg, entries, memoryBytes := cfg, map[], 0;
      new;
      assert Lengths(entries) == map[];
    }

    method Accept(now: nat, fragment: Fragment, deliver: Whole -> bool) returns (outcome: Outcome)
      requires Valid()
      modifies `entries, `memoryBytes
      ensures Valid()
      ensures (Value(), outcome) == AcceptFragment(cfg, old(Value()), now, fragment, deliver)
    {
      AcceptKeepsQuota(cfg, Value(), now, fragment, deliver);
      if !cfg.enabled { return Rejected(StateError); }
      if fragment.count > cfg.maxFragmentsPerMessage || fragment.length > cfg.maxReassembledMessageBytes {
        return Rejected(TooLarge);
      }
      if fragment.count == 0 || fragment.index >= fragment.count { return Rejected(BadPacket); }
      if |fragment.data| != Size(fragment.length, fragment.index) { return Rejected(BadPacket); }
      if !fragment.channel.IsApplication() { return Rejected(BadPacket); }

      var id := fragment.messageId;
      if id !in entries {
        if |entries| >= cfg.maxConcurrentReassemblies { return Rejected(QueueFull); }
        if memoryBytes + fragment.length > cfg.maxReassemblyMemory { return Rejected(QueueFull); }
        ghost var wider := Open(Value(), fragment, now);
        entries := entries[id := NewEntry(now, fragment)];
        memoryBytes := memoryBytes + fragment.length;
        assert Value() == wider;
      }
      outcome := StoreFragment(now, fragment, deliver);
    }

    method StoreFragment(now: nat, fragment: Fragment, deliver: Whole -> bool) returns (outcome: Outcome)
      requires Consistent(Value()) && fragment.messageId in entries && fragment.index < fragment.count
      modifies `entries, `memoryBytes
      ensures (Value(), outcome) == Store(old(Value()), fragment, now, deliver)
    {
      var id := fragment.messageId;
      var entry := entries[id];
      SumBound(Lengths(entries), id);
      if entry.deliverySequence != fragment.deliverySequence || entry.channel != fragment.channel ||
         entry.kind != fragment.kind || entry.count != fragment.count || entry.length != fragment.length {
        return Rejected(BadPacket);
      }
      if entry.received[fragment.index] {
        entries := entries[id := entry.(lastUpdateMs := now)];
        return Duplicate;
      }
      var offset := Offset(fragment.index);
      if offset + |fragment.data| > |entry.payload| { return Rejected(BadPacket); }
      entry := entry.(payload := entry.payload[..offset] + fragment.data + entry.payload[offset + |fragment.data|..]);
      entry := entry.(received := entry.received[fragment.index := true]);
      entry := entry.(receivedCount := entry.receivedCount + 1, lastUpdateMs := now);
      if entry.receivedCount == entry.count {
        var message := Whole(id, entry.deliverySequence, entry.channel, entry.kind, entry.payload);
        if !deliver(message) {
          entries := entries[id := entry];
          return Refused(message);
        }
        memoryBytes := memoryBytes - entry.length;
        entries := entries - {id};
        return Completed(message);
      }
      entries := entries[id := entry];
      return Stored;
    }

    // One entry's turn; `before` and `todo` say how far the sweep has come.
    method ExpireOne(now: nat, id: nat, ghost before: State, ghost todo: set<nat>) returns (gone: bool)
      requires Swept(cfg, before, Value(), todo, now) && id in todo
      modifies `entries, `memoryBytes
      ensures Swept(cfg, before, Value(), todo - {id}, now)
      ensures gone == !Fresh(cfg, before.entries[id], now)
    {
      SweepOne(cfg, before, Value(), todo, now, id);
      gone := now >= entries[id].lastUpdateMs + cfg.reassemblyTimeoutMs;
      if gone {
        memoryBytes := memoryBytes - entries[id].length;
        entries := entries - {id};
      }
    }

    method Sweep(now: nat) returns (expired: set<nat>)
      requires Consistent(Value())
      modifies `entries, `memoryBytes
      ensures Swept(cfg, old(Value()), Value(), {}, now)
      ensures forall id :: id in expired <==> id in old(entries) && !Fresh(cfg, old(entries)[id], now)
    {
      expired := {};
      var todo := entries.Keys;
      ghost var before := Value();
      while todo != {}
        invariant todo <= before.entries.Keys && Swept(cfg, before, Value(), todo, now)
        invariant forall id :: id in expired <==>
          id in before.entries && id !in todo && !Fresh(cfg, before.entries[id], now)
        decreases |todo|
      {
        var id :| id in todo;
        var gone := ExpireOne(now, id, before, todo);
        if gone { expired := expired + {id}; }
        todo := todo - {id};
      }
    }

    method ExpireOld(now: nat) returns (expired: set<nat>)
      requires Valid()
      modifies `entries, `memoryBytes
      ensures Valid() && Value() == Unexpired(cfg, old(Value()), now)
      ensures forall id :: id in expired <==> id in old(entries) && !Fresh(cfg, old(entries)[id], now)
    {
      ghost var before := Value();
      expired := Sweep(now);
      SweptAll(cfg, before, Value(), now);
      ExpiryKeepsQuota(cfg, before, now);
    }

    method Clear()
      modifies `entries, `memoryBytes
      ensures Valid() && Value() == EMPTY
    {
      entries, memoryBytes := map[], 0;
      assert Lengths(entries) == map[];
    }
  }
}
