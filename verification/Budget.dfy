// What the token bucket earns, from below, and what each event does to the rate that fills it.
module Budget {
  import opened Config
  import opened Congestion

  // ------------------------------------------------------------------------- one refill

  // Neither the product nor the sum of a refill leaves 64 bits.
  ghost predicate Fits(b: Bucket, now: nat) {
    now > b.lastRefillMs ==> b.budget + Rate(b.c) * (now - b.lastRefillMs) < U64_LIMIT
  }

  lemma WholeBytes(product: nat, gain: nat)
    requires 1000 * gain <= product < 1000 * gain + 1000
    ensures product / 1000 == gain
  {
  }

  // refill_send_budget(): `gain` whole bytes are earned since the last refill, within the bucket; nothing changes, not
  // even the time of the last refill, until there is a whole byte.
  lemma RefillIs(b: Bucket, now: nat, gain: nat)
    requires 0 < b.lastRefillMs < now && Fits(b, now)
    requires 1000 * gain <= Rate(b.c) * (now - b.lastRefillMs) < 1000 * gain + 1000
    ensures Refill(b, now) ==
      if gain == 0 then b
      else b.(budget := Min(Max(1300, 2 * Rate(b.c)), b.budget + gain), lastRefillMs := now)
  {
    WholeBytes(Rate(b.c) * (now - b.lastRefillMs), gain);
  }

  // The first call only notes the time, and opens an empty bucket with one second's worth.
  lemma FirstRefill(b: Bucket, now: nat)
    requires b.lastRefillMs == 0
    ensures Refill(b, now).lastRefillMs == now
    ensures Refill(b, now).budget == if b.budget == 0 then Rate(b.c) else b.budget
  {
  }

  // A refill takes place exactly when at least one byte was earned, and earns the whole bytes there are, unless it
  // fills the bucket.
  ghost predicate Gains(b: Bucket, now: nat, b': Bucket) {
    && (b'.lastRefillMs == now != b.lastRefillMs <==>
          now > b.lastRefillMs && Rate(b.c) * (now - b.lastRefillMs) >= 1000)
    && (b'.lastRefillMs == now != b.lastRefillMs && b'.budget < Max(1300, 2 * Rate(b.c)) ==>
          0 <= Rate(b.c) * (now - b.lastRefillMs) - 1000 * (b'.budget - b.budget) < 1000)
    && (b'.lastRefillMs != now ==> b' == b)
  }

  lemma RefillGains(b: Bucket, now: nat)
    requires 0 < b.lastRefillMs && Fits(b, now)
    ensures Gains(b, now, Refill(b, now))
  {
    if now > b.lastRefillMs {
      var product := Rate(b.c) * (now - b.lastRefillMs);
      RefillIs(b, now, product / 1000);
    }
  }

  lemma GainsIfFits(b: Bucket, now: nat)
    ensures 0 < b.lastRefillMs && Fits(b, now) ==> Gains(b, now, Refill(b, now))
  {
    if 0 < b.lastRefillMs && Fits(b, now) { RefillGains(b, now); }
  }

  // --------------------------------------------------------------------------- whole runs

  // The rate never falls below r.
  ghost predicate AtLeast(l: Ledger, steps: seq<Step>, r: nat) {
    forall k | 0 <= k <= |steps| ::
      RunBucket(l, steps[..k]).Some? ==> Rate(RunBucket(l, steps[..k]).value.b.c) >= r
  }

  // No step wraps, and none leaves the bucket full.
  ghost predicate Lean(l: Ledger, steps: seq<Step>)
    requires RunBucket(l, steps).Some?
  {
    steps != [] ==>
      var before, last := RunBucket(l, steps[..|steps| - 1]).value, steps[|steps| - 1];
      && Lean(l, steps[..|steps| - 1])
      && (last.Refills? ==> Fits(before.b, last.now))
      && Take(before, last).b.budget < BucketCap(Take(before, last).b.c)
  }

  // How many refills took place.
  ghost function Refilled(l: Ledger, steps: seq<Step>): nat
    requires RunBucket(l, steps).Some?
  {
    if steps == [] then 0
    else
      var before := steps[..|steps| - 1];
      var last, next := RunBucket(l, before).value.b.lastRefillMs, RunBucket(l, steps).value.b.lastRefillMs;
      Refilled(l, before) + if next == last then 0 else 1
  }

  // What a ledger has come to, sent or left.
  ghost function Worth(l: Ledger): nat { l.sent + l.b.budget }

  lemma RefillEarns(l: Ledger, now: nat, r: nat)
    requires 0 < l.b.lastRefillMs && l.clock <= now && r <= Rate(l.b.c) && Fits(l.b, now)
    requires var b' := Refill(l.b, now); b'.budget < BucketCap(b'.c)
    ensures var b' := Refill(l.b, now);
      && b'.lastRefillMs >= l.b.lastRefillMs
      && 1000 * b'.budget + (if b'.lastRefillMs == l.b.lastRefillMs then 0 else 999)
         >= 1000 * l.b.budget + r * (b'.lastRefillMs - l.b.lastRefillMs)
  {
    if now > l.b.lastRefillMs {
      var elapsed := now - l.b.lastRefillMs;
      var product := Rate(l.b.c) * elapsed;
      RefillIs(l.b, now, product / 1000);
      Scales(r, Rate(l.b.c), elapsed);
    }
  }

  lemma StepEarns(l: Ledger, step: Step, r: nat)
    requires Allowed(l, step) && 0 < l.b.lastRefillMs && r <= Rate(l.b.c)
    requires step.Refills? ==> Fits(l.b, step.now)
    requires Take(l, step).b.budget < BucketCap(Take(l, step).b.c)
    ensures var l' := Take(l, step);
      Earned(l, l', r, if l'.b.lastRefillMs == l.b.lastRefillMs then 0 else 999)
  {
    if step.Refills? { RefillEarns(l, step.now, r); }
  }

  lemma AtLeastBefore(l: Ledger, steps: seq<Step>, r: nat)
    requires AtLeast(l, steps, r) && steps != []
    ensures AtLeast(l, steps[..|steps| - 1], r)
  {
    var before := steps[..|steps| - 1];
    forall k | 0 <= k <= |before| ensures before[..k] == steps[..k] {}
  }

  // From l to l' every millisecond between the last refills earned its bytes at rate r, but for `spare` thousandths.
  ghost predicate Earned(l: Ledger, l': Ledger, r: nat, spare: nat) {
    && l'.b.lastRefillMs >= l.b.lastRefillMs
    && 1000 * Worth(l') + spare >= 1000 * Worth(l) + r * (l'.b.lastRefillMs - l.b.lastRefillMs)
  }

  lemma EarnedOn(l: Ledger, l1: Ledger, l2: Ledger, r: nat, spare: nat, more: nat)
    requires Earned(l, l1, r, spare) && Earned(l1, l2, r, more)
    ensures Earned(l, l2, r, spare + more)
  {
    Splits(r, l1.b.lastRefillMs - l.b.lastRefillMs, l2.b.lastRefillMs - l1.b.lastRefillMs);
  }

  lemma RateBefore(l: Ledger, steps: seq<Step>, r: nat)
    requires steps != [] && RunBucket(l, steps).Some? && AtLeast(l, steps, r)
    ensures Rate(RunBucket(l, steps[..|steps| - 1]).value.b.c) >= r
  {
  }

  // Over any run at rate r or more in which the bucket was never full, less than one byte is lost each refill.
  lemma {:induction false} EarnsAtLeast(l: Ledger, steps: seq<Step>, r: nat)
    requires 0 < l.b.lastRefillMs && RunBucket(l, steps).Some? && Lean(l, steps) && AtLeast(l, steps, r)
    ensures Earned(l, RunBucket(l, steps).value, r, 999 * Refilled(l, steps))
  {
    if steps != [] {
      var n := |steps| - 1;
      AtLeastBefore(l, steps, r);
      EarnsAtLeast(l, steps[..n], r);
      var before := RunBucket(l, steps[..n]).value;
      RateBefore(l, steps, r);
      StepEarns(before, steps[n], r);
      var after := Take(before, steps[n]);
      EarnedOn(l, before, after, r, 999 * Refilled(l, steps[..n]),
               if after.b.lastRefillMs == before.b.lastRefillMs then 0 else 999);
    }
  }

  // ... and up to the present when the last step was a refill, but for one byte more.
  lemma EarnsUntilNow(l: Ledger, steps: seq<Step>, now: nat, r: nat)
    requires 0 < l.b.lastRefillMs <= l.clock && RunBucket(l, steps + [Refills(now)]).Some?
    requires Lean(l, steps + [Refills(now)]) && AtLeast(l, steps + [Refills(now)], r)
    ensures var all := steps + [Refills(now)];
      var l' := RunBucket(l, all).value;
      l.b.lastRefillMs <= now &&
      1000 * Worth(l') + 999 * Refilled(l, all) + 1000 > 1000 * Worth(l) + r * (now - l.b.lastRefillMs)
  {
    var all := steps + [Refills(now)];
    assert all[..|all| - 1] == steps;
    EarnsAtLeast(l, all, r);
    var before, l' := RunBucket(l, steps).value, RunBucket(l, all).value;
    ClockAhead(l, steps);
    assert all[..|steps|] == steps;
    LateBy(before, now, r);
    EarnedNow(l, l', r, 999 * Refilled(l, all), now);
  }

  lemma EarnedNow(l: Ledger, l': Ledger, r: nat, spare: nat, now: nat)
    requires Earned(l, l', r, spare) && l'.b.lastRefillMs <= now && r * (now - l'.b.lastRefillMs) < 1000
    ensures 1000 * Worth(l') + spare + 1000 > 1000 * Worth(l) + r * (now - l.b.lastRefillMs)
  {
    Splits(r, l'.b.lastRefillMs - l.b.lastRefillMs, now - l'.b.lastRefillMs);
  }

  lemma LateBy(l: Ledger, now: nat, r: nat)
    requires 0 < l.b.lastRefillMs <= l.clock <= now && Fits(l.b, now) && r <= Rate(l.b.c)
    ensures var last := Refill(l.b, now).lastRefillMs; last <= now && r * (now - last) < 1000
  {
    RefillGains(l.b, now);
    Scales(r, Rate(l.b.c), now - l.b.lastRefillMs);
  }

  lemma {:induction false} ClockAhead(l: Ledger, steps: seq<Step>)
    requires 0 < l.b.lastRefillMs <= l.clock && RunBucket(l, steps).Some?
    ensures var l' := RunBucket(l, steps).value; l.b.lastRefillMs <= l'.b.lastRefillMs <= l'.clock
  {
    if steps != [] { ClockAhead(l, steps[..|steps| - 1]); }
  }

  // The least rate of the configuration is such an r, in every run.
  lemma {:induction false} LeastRate(l: Ledger, steps: seq<Step>)
    requires Balanced(l)
    ensures AtLeast(l, steps, MinRate(l.b.c))
  {
    forall k | 0 <= k <= |steps| && RunBucket(l, steps[..k]).Some?
      ensures Rate(RunBucket(l, steps[..k]).value.b.c) >= MinRate(l.b.c)
    {
      RunBalances(l, steps[..k]);
      SameConfig(l, steps[..k]);
    }
  }

  lemma {:induction false} SameConfig(l: Ledger, steps: seq<Step>)
    requires RunBucket(l, steps).Some?
    ensures var c := RunBucket(l, steps).value.b.c; c.cfg == l.b.c.cfg && c.configured == l.b.c.configured
  {
    if steps != [] { SameConfig(l, steps[..|steps| - 1]); }
  }

  // Every run from the opening in which the bucket was never full earned at least the least rate.
  lemma RunEarns(cfg: CongestionConfig, sendRate: nat, start: nat, steps: seq<Step>)
    requires cfg.Valid(sendRate) && start > 0
    requires var first := Opening(cfg, sendRate, start); RunBucket(first, steps).Some? && Lean(first, steps)
    ensures var first := Opening(cfg, sendRate, start);
      Earned(first, RunBucket(first, steps).value, MinRate(Configure(cfg, sendRate)), 999 * Refilled(first, steps))
  {
    var first := Opening(cfg, sendRate, start);
    ConfigureIsValid(cfg, sendRate);
    LeastRate(first, steps);
    EarnsAtLeast(first, steps, MinRate(first.b.c));
  }

  // ------------------------------------------------------------------------- the controller

  // on_ack(): the rate grows by max(1, additive increase) up to the greatest for a message sent once, and stays for a
  // retransmitted one.
  lemma AckMovesRate(c: Controller, sample: Option<nat>, retransmitted: bool)
    ensures OnAck(c, sample, retransmitted).rate ==
      if !c.cfg.enabled || retransmitted then c.rate
      else Min(MaxRate(c), c.rate + Max(1, c.cfg.additiveIncrease))
    ensures retransmitted ==> OnAck(c, sample, retransmitted).window == c.window
  {
  }

  // ... and the smoothed round-trip time moves an eighth of the way to the sample.
  lemma AckMovesRtt(c: Controller, sample: nat, retransmitted: bool)
    requires c.cfg.enabled && 0 < sample && 7 * c.srtt + sample < U64_LIMIT && 0 < c.srtt
    ensures var srtt := OnAck(c, Some(sample), retransmitted).srtt;
      8 * srtt <= 7 * c.srtt + sample < 8 * srtt + 8
  {
    assert W64(c.srtt * 7) == c.srtt * 7;
  }

  // The window is what the rate sends in one round trip of at least 25 ms, within its limits.
  lemma WindowIs(c: Controller, bytes: nat)
    requires c.cfg.enabled
    requires var rtt := if c.srtt == 0 then 100 else Max(25, c.srtt);
      c.rate * rtt < U64_LIMIT && 1000 * bytes <= c.rate * rtt < 1000 * bytes + 1000
    ensures WithWindow(c) == c.(window := Clamp(Max(1300, bytes), c.cfg.minWindow, MaxWindow(c)))
  {
    var rtt := if c.srtt == 0 then 100 else Max(25, c.srtt);
    WholeBytes(c.rate * rtt, bytes);
  }

  // A decrease scales the rate by the per mille, rounded down, but not below the least rate.
  lemma DecreaseIs(c: Controller, perMille: nat, scaled: nat)
    requires Valid(c) && c.cfg.enabled && perMille <= 1000
    requires 1000 * scaled <= c.rate * perMille < 1000 * scaled + 1000
    ensures Decrease(c, perMille).rate == Max(MinRate(c), scaled)
  {
    WholeBytes(c.rate * perMille, scaled);
    ScaledDown(c.rate, perMille);
  }

  // on_loss(): so it does for a positive count outside the cooldown, which starts anew then, and in no other case.
  lemma LossMovesRate(c: Controller, now: nat, count: nat, scaled: nat)
    requires Valid(c) && c.cfg.enabled
    requires 1000 * scaled <= c.rate * c.cfg.lossDecreasePerMille < 1000 * scaled + 1000
    ensures var l := OnLoss(c, now, count);
      var acts := count > 0 && !(0 < c.lastLossMs <= now < c.lastLossMs + c.cfg.lossCooldownMs);
      && l.rate == (if acts then Max(MinRate(c), scaled) else c.rate)
      && l.lastLossMs == (if acts then now else c.lastLossMs)
      && l.lastBackpressureMs == c.lastBackpressureMs && l.srtt == c.srtt
  {
    DecreaseIs(c.(lastLossMs := now), c.cfg.lossDecreasePerMille, scaled);
  }

  // on_backpressure(): likewise, with its own cooldown.
  lemma BackpressureMovesRate(c: Controller, now: nat, scaled: nat)
    requires Valid(c) && c.cfg.enabled
    requires 1000 * scaled <= c.rate * c.cfg.backpressureDecreasePerMille < 1000 * scaled + 1000
    ensures var b := OnBackpressure(c, now);
      var acts := !(0 < c.lastBackpressureMs <= now < c.lastBackpressureMs + c.cfg.backpressureCooldownMs);
      && b.rate == (if acts then Max(MinRate(c), scaled) else c.rate)
      && b.lastBackpressureMs == (if acts then now else c.lastBackpressureMs)
      && b.lastLossMs == c.lastLossMs && b.srtt == c.srtt
  {
    DecreaseIs(c.(lastBackpressureMs := now), c.cfg.backpressureDecreasePerMille, scaled);
  }

  // configure(): the rate starts at the configured one, or at half the greatest, within its bounds.
  lemma StartsAt(cfg: CongestionConfig, sendRate: nat)
    requires cfg.Valid(sendRate) && sendRate > 0
    ensures var c := Configure(cfg, sendRate);
      var top := if cfg.enabled && cfg.maxRate > 0 then cfg.maxRate else sendRate;
      && MaxRate(c) == top && MinRate(c) == (if cfg.enabled then cfg.minRate else sendRate)
      && Rate(c) == if !cfg.enabled then sendRate
                    else if cfg.initialRate > 0 then cfg.initialRate else Max(cfg.minRate, top / 2)
  {
  }
}
