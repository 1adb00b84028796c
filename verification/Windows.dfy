// The two 64-bit sliding windows (packet replay, reliable ids) and the
// latest-wins window of the sequenced channel.
module Windows {

  const WINDOW_BITS: nat := 64
  const TWO_64: nat := 0x1_0000_0000_0000_0000

  // ---------------------------------------------------------------- U64 masks

  ghost function Pow2(n: nat): nat { if n == 0 then 1 else 2 * Pow2(n - 1) }

  // Bit d of a mask.
  predicate Bit(mask: nat, d: nat) {
    if d == 0 then mask % 2 == 1 else Bit(mask / 2, d - 1)
  }

  // mask << k on a U64: each single shift drops the bit that leaves 64 bits.
  function ShiftLeft(mask: nat, k: nat): nat
    decreases k
  {
    if k == 0 then mask else ShiftLeft(2 * mask % TWO_64, k - 1)
  }

  // mask | (1 << d)
  function OrBit(mask: nat, d: nat): nat {
    if d == 0 then mask - mask % 2 + 1 else 2 * OrBit(mask / 2, d - 1) + mask % 2
  }

  lemma Pow2Of64()
    ensures Pow2(63) == 0x8000_0000_0000_0000 && Pow2(64) == TWO_64
  {
    assert Pow2(8) == 0x100;
    assert Pow2(16) == 0x1_0000;
    assert Pow2(24) == 0x100_0000;
    assert Pow2(32) == 0x1_0000_0000;
    assert Pow2(40) == 0x100_0000_0000;
    assert Pow2(48) == 0x1_0000_0000_0000;
    assert Pow2(56) == 0x100_0000_0000_0000;
  }

  lemma {:induction false} TopBit(mask: nat, n: nat, d: nat)
    requires d < n && Pow2(n) <= mask
    ensures Bit(mask - Pow2(n), d) <==> Bit(mask, d)
  {
    if d > 0 {
      assert (mask - Pow2(n)) / 2 == mask / 2 - Pow2(n - 1);
      TopBit(mask / 2, n - 1, d - 1);
    }
  }

  lemma DoubleBit(mask: nat, d: nat)
    requires mask < TWO_64 && d < 64
    ensures Bit(2 * mask % TWO_64, d) <==> d > 0 && Bit(mask, d - 1)
  {
    Pow2Of64();
    if d > 0 && mask >= Pow2(63) {
      assert 2 * mask % TWO_64 == 2 * (mask - Pow2(63));
      TopBit(mask, 63, d - 1);
    }
  }

  lemma {:induction false} ShiftBit(mask: nat, k: nat, d: nat)
    requires mask < TWO_64 && d < 64
    ensures ShiftLeft(mask, k) < TWO_64
    ensures Bit(ShiftLeft(mask, k), d) <==> k <= d && Bit(mask, d - k)
    decreases k
  {
    if k > 0 {
      ShiftBit(2 * mask % TWO_64, k - 1, d);
      if k <= d { DoubleBit(mask, d - k + 1); }
      DoubleBit(mask, 0);
    }
  }

  lemma {:induction false} OrBitBit(mask: nat, k: nat, d: nat)
    ensures Bit(OrBit(mask, k), d) <==> d == k || Bit(mask, d)
  {
    if k > 0 && d > 0 {
      assert (2 * OrBit(mask / 2, k - 1) + mask % 2) / 2 == OrBit(mask / 2, k - 1);
      OrBitBit(mask / 2, k - 1, d - 1);
    }
  }

  lemma {:induction false} OrBitBound(mask: nat, k: nat, n: nat)
    requires k < n && mask < Pow2(n)
    ensures OrBit(mask, k) < Pow2(n)
  {
    if k > 0 { OrBitBound(mask / 2, k - 1, n - 1); }
  }

  lemma {:induction false} ZeroBit(d: nat)
    ensures !Bit(0, d)
  {
    if d > 0 { ZeroBit(d - 1); }
  }

  // ------------------------------------------------ the mask refines a set of ids

  datatype Window = Window(initialized: bool, latest: nat, seen: nat)

  const EMPTY_WINDOW := Window(false, 0, 0)

  // One accept() call on the three fields: the new fields and the verdict.
  function Slide(w: Window, id: nat): (r: (Window, bool)) {
    if !w.initialized then
      (Window(true, id, 1), true)
    else if id > w.latest then
      var delta := id - w.latest;
      var shifted := if delta >= WINDOW_BITS then 0 else ShiftLeft(w.seen, delta);
      (Window(true, id, OrBit(shifted, 0)), true)
    else
      var delta := w.latest - id;
      if delta >= WINDOW_BITS then (w, false)
      else (w.(seen := OrBit(w.seen, delta)), !Bit(w.seen, delta))
  }

  // The specification: an id passes when it is new and no accepted id is 64 or more ahead of it.
  ghost predicate Admits(accepted: set<nat>, id: nat) {
    id !in accepted && forall a | a in accepted :: a < id + WINDOW_BITS
  }

  ghost predicate Represents(w: Window, accepted: set<nat>) {
    && w.seen < TWO_64
    && (!w.initialized ==> accepted == {} && w.seen == 0)
    && (w.initialized ==>
      && w.latest in accepted
      && (forall a | a in accepted :: a <= w.latest)
      && (forall d | 0 <= d < 64 :: Bit(w.seen, d) <==> d <= w.latest && w.latest - d in accepted))
  }

  ghost function AcceptInto(accepted: set<nat>, id: nat): set<nat> {
    if Admits(accepted, id) then accepted + {id} else accepted
  }

  lemma SlideForward(w: Window, accepted: set<nat>, id: nat)
    requires Represents(w, accepted) && w.initialized && id > w.latest
    ensures Represents(Slide(w, id).0, accepted + {id})
  {
    var delta := id - w.latest;
    var shifted := if delta >= WINDOW_BITS then 0 else ShiftLeft(w.seen, delta);
    var now := Slide(w, id).0;
    ShiftBit(w.seen, delta, 0);
    Pow2Of64();
    OrBitBound(shifted, 0, 64);
    forall d | 0 <= d < 64
      ensures Bit(now.seen, d) <==> d <= id && id - d in accepted + {id}
    {
      OrBitBit(shifted, 0, d);
      if delta >= WINDOW_BITS { ZeroBit(d); } else { ShiftBit(w.seen, delta, d); }
      if d >= delta {
        assert id - d == w.latest - (d - delta);
      }
    }
  }

  lemma SlideBack(w: Window, accepted: set<nat>, id: nat)
    requires Represents(w, accepted) && w.initialized && id <= w.latest < id + 64
    ensures Slide(w, id).1 <==> id !in accepted
    ensures Represents(Slide(w, id).0, accepted + {id})
  {
    var delta := w.latest - id;
    var now := Slide(w, id).0;
    assert w.latest - delta == id;
    Pow2Of64();
    OrBitBound(w.seen, delta, 64);
    forall d | 0 <= d < 64
      ensures Bit(now.seen, d) <==> d <= w.latest && w.latest - d in accepted + {id}
    {
      OrBitBit(w.seen, delta, d);
    }
  }

  // accept() answers what the set answers and stays in step with it.
  lemma SlideRefinesSet(w: Window, accepted: set<nat>, id: nat)
    requires Represents(w, accepted)
    ensures Slide(w, id).1 <==> Admits(accepted, id)
    ensures Represents(Slide(w, id).0, AcceptInto(accepted, id))
  {
    if !w.initialized {
      forall d | 0 <= d < 64 ensures Bit(1, d) <==> d == 0 {
        if d > 0 { ZeroBit(d - 1); }
      }
    } else if id > w.latest {
      SlideForward(w, accepted, id);
    } else if w.latest < id + 64 {
      SlideBack(w, accepted, id);
      if id in accepted { assert accepted + {id} == accepted; }
    }
  }

  // What was refused once, as seen or as left behind, is refused as long as the set grows.
  lemma RefusedStays(accepted: set<nat>, more: set<nat>, id: nat)
    requires accepted <= more && !Admits(accepted, id)
    ensures !Admits(more, id)
  {
  }

  lemma RefusedNext(accepted: set<nat>, id: nat)
    ensures !Admits(AcceptInto(accepted, id), id)
  {
  }

  // The second accept() of an id always refuses it.
  lemma SlideTwice(w: Window, accepted: set<nat>, id: nat)
    requires Represents(w, accepted)
    ensures !Slide(Slide(w, id).0, id).1
  {
    SlideRefinesSet(w, accepted, id);
    SlideRefinesSet(Slide(w, id).0, AcceptInto(accepted, id), id);
    RefusedNext(accepted, id);
  }

  // Whole runs: fields and verdicts after a list of accept() calls, and the same on the set.
  function Run(ids: seq<nat>): (Window, seq<bool>) {
    if ids == [] then (EMPTY_WINDOW, [])
    else
      var (w, verdicts) := Run(ids[..|ids| - 1]);
      var (w', ok) := Slide(w, ids[|ids| - 1]);
      (w', verdicts + [ok])
  }

  ghost function AcceptedBy(ids: seq<nat>): set<nat> {
    if ids == [] then {} else AcceptInto(AcceptedBy(ids[..|ids| - 1]), ids[|ids| - 1])
  }

  // After any run the mask is the accepted set.
  lemma {:induction false} RunRefinesSet(ids: seq<nat>)
    ensures Represents(Run(ids).0, AcceptedBy(ids))
    ensures |Run(ids).1| == |ids|
  {
    if ids != [] {
      var n := |ids| - 1;
      RunRefinesSet(ids[..n]);
      SlideRefinesSet(Run(ids[..n]).0, AcceptedBy(ids[..n]), ids[n]);
    }
  }

  // Each verdict of a run is the set's verdict at that moment.
  lemma {:induction false} RunVerdict(ids: seq<nat>, i: nat)
    requires i < |ids|
    ensures |Run(ids).1| == |ids|
    ensures Run(ids).1[i] <==> Admits(AcceptedBy(ids[..i]), ids[i])
  {
    var n := |ids| - 1;
    RunRefinesSet(ids[..n]);
    if i < n {
      RunVerdict(ids[..n], i);
      assert ids[..n][..i] == ids[..i];
    } else {
      SlideRefinesSet(Run(ids[..n]).0, AcceptedBy(ids[..n]), ids[n]);
    }
  }

  lemma {:induction false} AcceptedByGrows(ids: seq<nat>, i: nat)
    requires i <= |ids|
    ensures AcceptedBy(ids[..i]) <= AcceptedBy(ids)
  {
    if i == |ids| {
      assert ids[..i] == ids;
    } else {
      AcceptedByGrows(ids[..|ids| - 1], i);
      assert ids[..|ids| - 1][..i] == ids[..i];
    }
  }

  // No id is ever accepted twice.
  lemma RunAcceptsOnce(ids: seq<nat>, i: nat, j: nat)
    requires i < j < |ids|
    ensures |Run(ids).1| == |ids|
    ensures Run(ids).1[i] && Run(ids).1[j] ==> ids[i] != ids[j]
  {
    RunVerdict(ids, i);
    RunVerdict(ids, j);
    assert ids[..i + 1][..i] == ids[..i];
    AcceptedByGrows(ids[..j], i + 1);
    assert ids[..j][..i + 1] == ids[..i + 1];
  }

  // ------------------------------------------------------------------- classes

  class ReplayWindow {
    var initialized: bool
    var latest: nat
    var seen: nat
    ghost var accepted: set<nat>

    ghost function Value(): Window reads this { Window(initialized, latest, seen) }

    ghost predicate Valid() reads this { Represents(Value(), accepted) }

    constructor ()
      ensures Valid() && accepted == {} && Value() == EMPTY_WINDOW
    {
      initialized, latest, seen, accepted := false, 0, 0, {};
    }

    method Accept(sequence: nat) returns (ok: bool)
      requires Valid()
      modifies this
      ensures Valid()
      ensures ok <==> Admits(old(accepted), sequence)
      ensures accepted == AcceptInto(old(accepted), sequence)
      ensures (Value(), ok) == Slide(old(Value()), sequence)
    {
      SlideRefinesSet(Value(), accepted, sequence);
      accepted := AcceptInto(accepted, sequence);
      if !initialized {
        initialized, latest, seen := true, sequence, 1;
        return true;
      }
      if sequence > latest {
        var delta := sequence - latest;
        if delta >= 64 {
          seen := 0;
        } else {
          seen := ShiftLeft(seen, delta);
        }
        seen := OrBit(seen, 0);
        latest := sequence;
        return true;
      }
      var delta := latest - sequence;
      if delta >= 64 {
        return false;
      }
      var duplicate := Bit(seen, delta);
      seen := OrBit(seen, delta);
      return !duplicate;
    }

    method Reset()
      modifies this
      ensures Valid() && accepted == {}
    {
      initialized, latest, seen, accepted := false, 0, 0, {};
    }
  }

  // Reliable ids: the same window, with id 0 refused outright.
  ghost predicate AdmitsId(accepted: set<nat>, id: nat) { id != 0 && Admits(accepted, id) }

  ghost function AcceptIdInto(accepted: set<nat>, id: nat): set<nat> {
    if AdmitsId(accepted, id) then accepted + {id} else accepted
  }

  class ReliableReceiveWindow {
    var initialized: bool
    var latest: nat
    var seen: nat
    ghost var accepted: set<nat>

    ghost function Value(): Window reads this { Window(initialized, latest, seen) }

    ghost predicate Valid() reads this { Represents(Value(), accepted) && 0 !in accepted }

    constructor ()
      ensures Valid() && accepted == {} && Value() == EMPTY_WINDOW
    {
      initialized, latest, seen, accepted := false, 0, 0, {};
    }

    method Accept(messageId: nat) returns (ok: bool)
      requires Valid()
      modifies this
      ensures Valid()
      ensures ok <==> AdmitsId(old(accepted), messageId)
      ensures accepted == AcceptIdInto(old(accepted), messageId)
      ensures (Value(), ok) == if messageId == 0 then (old(Value()), false) else Slide(old(Value()), messageId)
    {
      if messageId == 0 {
        return false;
      }
      SlideRefinesSet(Value(), accepted, messageId);
      accepted := AcceptIdInto(accepted, messageId);
      if !initialized {
        initialized, latest, seen := true, messageId, 1;
        return true;
      }
      if messageId > latest {
        var delta := messageId - latest;
        if delta >= 64 {
          seen := 0;
        } else {
          seen := ShiftLeft(seen, delta);
        }
        seen := OrBit(seen, 0);
        latest := messageId;
        return true;
      }
      var delta := latest - messageId;
      if delta >= 64 {
        return false;
      }
      var duplicate := Bit(seen, delta);
      seen := OrBit(seen, delta);
      return !duplicate;
    }

    // An id is reported as seen when it was accepted and has not fallen out of the window.
    method Seen(messageId: nat) returns (r: bool)
      requires Valid()
      ensures r <==> messageId in accepted && forall a | a in accepted :: a < messageId + 64
    {
      if messageId == 0 || !initialized || messageId > latest {
        return false;
      }
      var delta := latest - messageId;
      assert latest - delta == messageId;
      if delta >= 64 {
        return false;
      }
      return Bit(seen, delta);
    }

    method Reset()
      modifies this
      ensures Valid() && accepted == {}
    {
      initialized, latest, seen, accepted := false, 0, 0, {};
    }
  }

  // The highest number accepted so far, 0 when there is none: numbers are never 0.
  class SequencedReceiveWindow {
    var initialized: bool
    var latest: nat

    ghost predicate Valid() reads this { initialized <==> latest != 0 }

    constructor ()
      ensures Valid() && latest == 0
    {
      initialized, latest := false, 0;
    }

    method Accept(deliverySequence: nat) returns (ok: bool)
      requires Valid()
      modifies this
      ensures Valid()
      ensures ok <==> deliverySequence > old(latest)
      ensures latest == if ok then deliverySequence else old(latest)
    {
      if deliverySequence == 0 {
        return false;
      }
      if !initialized {
        initialized, latest := true, deliverySequence;
        return true;
      }
      if deliverySequence <= latest {
        return false;
      }
      latest := deliverySequence;
      return true;
    }

    method Clear()
      modifies this
      ensures Valid() && latest == 0
    {
      initialized, latest := false, 0;
    }
  }
}
