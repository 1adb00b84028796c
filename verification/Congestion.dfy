// The AIMD congestion controller and the token bucket it drives.
module Congestion {
  import opened Config

  datatype Controller = Controller(
    cfg: CongestionConfig, configured: nat, rate: nat, window: nat, srtt: nat,
    lastLossMs: nat, lastBackpressureMs: nat)

  function MaxRate(c: Controller): nat {
    if !c.cfg.enabled || c.cfg.maxRate == 0 then c.configured else c.cfg.maxRate
  }

  function MinRate(c: Controller): nat {
    if !c.cfg.enabled then c.configured else Min(Max(1, c.cfg.minRate), MaxRate(c))
  }

  function Rate(c: Controller): nat { if c.cfg.enabled then c.rate else c.configured }

  function BucketCap(c: Controller): nat { Max(MAX_PACKET_BYTES, Rate(c) * 2) }

  function MaxWindow(c: Controller): nat {
    if c.cfg.maxWindow != 0 then c.cfg.maxWindow else Max(c.cfg.minWindow, MaxRate(c) * 2)
  }

  function WithWindow(c: Controller): Controller {
    if !c.cfg.enabled then c.(window := BucketCap(c))
    else
      var rtt: nat := Max(25, if c.srtt == 0 then 100 else c.srtt);
      var product := Max(MAX_PACKET_BYTES, W64(c.rate * rtt) / 1000);
      c.(window := Clamp(product, c.cfg.minWindow, MaxWindow(c)))
  }

  function Configure(cfg: CongestionConfig, sendRate: nat): Controller {
    var c := Controller(cfg, Max(1, sendRate), 1, 0, 100, 0, 0);
    var first := if cfg.initialRate != 0 then cfg.initialRate else Max(MinRate(c), MaxRate(c) / 2);
    WithWindow(c.(rate := if cfg.enabled then Clamp(first, MinRate(c), MaxRate(c)) else c.configured))
  }

  function OnAck(c: Controller, sample: Option<nat>, retransmitted: bool): Controller {
    if !c.cfg.enabled then c
    else
      var srtt: nat :=
        if sample.None? || sample.value == 0 then c.srtt
        else if c.srtt == 0 then sample.value
        else W64(W64(c.srtt * 7) + sample.value) / 8;
      var c1 := c.(srtt := srtt);
      if retransmitted then c1
      else WithWindow(c1.(rate := Min(MaxRate(c), c.rate + Max(1, c.cfg.additiveIncrease))))
  }

  function Decrease(c: Controller, perMille: nat): Controller {
    WithWindow(c.(rate := Clamp(Max(1, c.rate * perMille / 1000), MinRate(c), MaxRate(c))))
  }

  predicate Cooling(last: nat, now: nat, cooldown: nat) { last != 0 && last <= now < last + cooldown }

  function OnLoss(c: Controller, now: nat, count: nat): Controller {
    if !c.cfg.enabled || count == 0 || Cooling(c.lastLossMs, now, c.cfg.lossCooldownMs) then c
    else Decrease(c.(lastLossMs := now), c.cfg.lossDecreasePerMille)
  }

  function OnBackpressure(c: Controller, now: nat): Controller {
    if !c.cfg.enabled || Cooling(c.lastBackpressureMs, now, c.cfg.backpressureCooldownMs) then c
    else Decrease(c.(lastBackpressureMs := now), c.cfg.backpressureDecreasePerMille)
  }

  ghost predicate Valid(c: Controller) {
    && c.configured >= 1 && c.cfg.Valid(c.configured)
    && MinRate(c) <= Rate(c) <= MaxRate(c)
    && (c.cfg.enabled ==> c.cfg.minWindow <= c.window <= MaxWindow(c))
  }

  // Every event keeps the rate and the window within the configured bounds; a loss or back-pressure never
  // raises the rate, an acknowledgement never lowers it.
  lemma ControllerStaysInBounds(c: Controller, sample: Option<nat>, retransmitted: bool, now: nat, count: nat)
    requires Valid(c)
    ensures var a := OnAck(c, sample, retransmitted); Valid(a) && Rate(c) <= Rate(a) && MaxRate(a) == MaxRate(c)
    ensures var l := OnLoss(c, now, count); Valid(l) && Rate(l) <= Rate(c) && MaxRate(l) == MaxRate(c)
    ensures var b := OnBackpressure(c, now); Valid(b) && Rate(b) <= Rate(c) && MaxRate(b) == MaxRate(c)
  {
    AckStaysInBounds(c, sample, retransmitted);
    LossStaysInBounds(c, now, count);
    BackpressureStaysInBounds(c, now);
  }

  lemma AckStaysInBounds(c: Controller, sample: Option<nat>, retransmitted: bool)
    requires Valid(c)
    ensures var a := OnAck(c, sample, retransmitted); Valid(a) && Rate(c) <= Rate(a) && MaxRate(a) == MaxRate(c)
  {
  }

  lemma LossStaysInBounds(c: Controller, now: nat, count: nat)
    requires Valid(c)
    ensures var l := OnLoss(c, now, count); Valid(l) && Rate(l) <= Rate(c) && MaxRate(l) == MaxRate(c)
  {
    if c.cfg.enabled { ScaledDown(c.rate, c.cfg.lossDecreasePerMille); }
  }

  lemma BackpressureStaysInBounds(c: Controller, now: nat)
    requires Valid(c)
    ensures var b := OnBackpressure(c, now); Valid(b) && Rate(b) <= Rate(c) && MaxRate(b) == MaxRate(c)
  {
    if c.cfg.enabled { ScaledDown(c.rate, c.cfg.backpressureDecreasePerMille); }
  }

  lemma ScaledDown(rate: nat, perMille: nat)
    requires perMille <= 1000
    ensures rate * perMille / 1000 <= rate
  {
    assert rate * perMille <= rate * 1000;
  }

  lemma ConfigureIsValid(cfg: CongestionConfig, sendRate: nat)
    requires cfg.Valid(sendRate)
    ensures Valid(Configure(cfg, sendRate))
  {
  }

  // ------------------------------------------------------------------ token bucket

  datatype Bucket = Bucket(c: Controller, budget: nat, lastRefillMs: nat)

  function Refill(b: Bucket, now: nat): Bucket {
    if b.lastRefillMs == 0 then
      b.(lastRefillMs := now, budget := if b.budget == 0 then Rate(b.c) else b.budget)
    else if now <= b.lastRefillMs then b
    else
      var refill := W64(Rate(b.c) * (now - b.lastRefillMs)) / 1000;
      if refill == 0 then b
      else b.(budget := Min(BucketCap(b.c), W64(b.budget + refill)), lastRefillMs := now)
  }

  // Capped after the controller lowered the rate.
  function Capped(b: Bucket, c: Controller): Bucket { b.(c := c, budget := Min(b.budget, BucketCap(c))) }

  datatype Step =
    | Refills(now: nat)
    | Spends(bytes: nat)
    | Acks(sample: Option<nat>, retransmitted: bool)
    | Loses(now: nat, count: nat)
    | Presses(now: nat)

  // A bucket with what has been sent from it since `start`.
  datatype Ledger = Ledger(b: Bucket, sent: nat, clock: nat, start: nat, initial: nat)

  ghost predicate Allowed(l: Ledger, step: Step) {
    match step
    case Refills(now) => l.clock <= now
    case Spends(bytes) => bytes <= l.b.budget
    case Acks(_, _) => true
    case Loses(now, _) => l.clock <= now
    case Presses(now) => l.clock <= now
  }

  ghost function Take(l: Ledger, step: Step): Ledger
    requires Allowed(l, step)
  {
    match step
    case Refills(now) => l.(b := Refill(l.b, now), clock := now)
    case Spends(bytes) => l.(b := l.b.(budget := l.b.budget - bytes), sent := l.sent + bytes)
    case Acks(sample, retransmitted) => l.(b := l.b.(c := OnAck(l.b.c, sample, retransmitted)))
    case Loses(now, count) => l.(b := Capped(l.b, OnLoss(l.b.c, now, count)), clock := now)
    case Presses(now) => l.(b := Capped(l.b, OnBackpressure(l.b.c, now)), clock := now)
  }

  ghost function Opening(cfg: CongestionConfig, sendRate: nat, start: nat): Ledger {
    var c := Configure(cfg, sendRate);
    Ledger(Bucket(c, Rate(c), start), 0, start, start, Rate(c))
  }

  // What was sent and what is left never exceed the opening budget plus the fastest rate's earnings.
  ghost predicate Balanced(l: Ledger) {
    && Valid(l.b.c)
    && 0 < l.start <= l.b.lastRefillMs <= l.clock
    && l.b.budget <= BucketCap(l.b.c)
    && 1000 * (l.sent + l.b.budget) <= 1000 * l.initial + MaxRate(l.b.c) * (l.b.lastRefillMs - l.start)
  }

  lemma Scales(a: nat, b: nat, n: nat)
    requires a <= b
    ensures a * n <= b * n && n * a <= n * b
  {
  }

  lemma Splits(top: nat, x: nat, y: nat)
    ensures top * (x + y) == top * x + top * y
  {
  }

  // A refill earns at most the top rate over the time it covers.
  lemma Earns(rate: nat, top: nat, elapsed: nat)
    requires rate <= top
    ensures 1000 * (W64(rate * elapsed) / 1000) <= top * elapsed
  {
    Scales(rate, top, elapsed);
    var product := rate * elapsed;
    assert W64(product) <= product;
  }

  lemma RefillBalances(l: Ledger, now: nat)
    requires Balanced(l) && l.clock <= now
    ensures Balanced(l.(b := Refill(l.b, now), clock := now))
  {
    var top, last := MaxRate(l.b.c), l.b.lastRefillMs;
    if now > last {
      Earns(Rate(l.b.c), top, now - last);
      Splits(top, last - l.start, now - last);
      var refill := W64(Rate(l.b.c) * (now - last)) / 1000;
      assert W64(l.b.budget + refill) <= l.b.budget + refill;
    }
  }

  lemma TakeBalances(l: Ledger, step: Step)
    requires Balanced(l) && Allowed(l, step)
    ensures Balanced(Take(l, step)) && MaxRate(Take(l, step).b.c) == MaxRate(l.b.c)
  {
    match step
    case Refills(now) => RefillBalances(l, now);
    case Spends(bytes) =>
    case Acks(sample, retransmitted) => ControllerStaysInBounds(l.b.c, sample, retransmitted, 0, 0);
    case Loses(now, count) => ControllerStaysInBounds(l.b.c, None, false, now, count);
    case Presses(now) => ControllerStaysInBounds(l.b.c, None, false, now, 0);
  }

  // The ledger after a list of steps, if each was allowed.
  ghost function RunBucket(l: Ledger, steps: seq<Step>): Option<Ledger> {
    if steps == [] then Some(l)
    else
      var before := RunBucket(l, steps[..|steps| - 1]);
      var last := steps[|steps| - 1];
      if before.None? || !Allowed(before.value, last) then None else Some(Take(before.value, last))
  }

  lemma {:induction false} RunBalances(l: Ledger, steps: seq<Step>)
    requires Balanced(l) && RunBucket(l, steps).Some?
    ensures var l' := RunBucket(l, steps).value;
      Balanced(l') && MaxRate(l'.b.c) == MaxRate(l.b.c) && l'.start == l.start && l'.initial == l.initial
  {
    if steps != [] {
      var before := steps[..|steps| - 1];
      RunBalances(l, before);
      TakeBalances(RunBucket(l, before).value, steps[|steps| - 1]);
    }
  }

  // Over any run of refills, sends, acks, losses and back-pressure: the rate stays within its bounds, the
  // budget within the bucket, and 1000 * bytes sent <= 1000 * opening budget + max rate * elapsed ms.
  lemma RunIsPaced(cfg: CongestionConfig, sendRate: nat, start: nat, steps: seq<Step>)
    requires cfg.Valid(sendRate) && start > 0
    requires RunBucket(Opening(cfg, sendRate, start), steps).Some?
    ensures var c := Configure(cfg, sendRate);
      var l := RunBucket(Opening(cfg, sendRate, start), steps).value;
      && MinRate(l.b.c) <= Rate(l.b.c) <= MaxRate(l.b.c) == MaxRate(c)
      && l.b.budget <= BucketCap(l.b.c)
      && start <= l.clock && 1000 * l.sent <= 1000 * Rate(c) + MaxRate(c) * (l.clock - start)
  {
    var first := Opening(cfg, sendRate, start);
    ConfigureIsValid(cfg, sendRate);
    RunBalances(first, steps);
    var l := RunBucket(first, steps).value;
    Scales(l.b.lastRefillMs - start, l.clock - start, MaxRate(l.b.c));
  }

  // ------------------------------------------------------------------------ class

  class CongestionController {
    var cfg: CongestionConfig
    var configuredSendRate: nat
    var currentRate: nat
    var currentWindow: nat
    var smoothedRttMs: nat
    var lastLossMs: nat
    var lastBackpressureMs: nat

    ghost function Value(): Controller reads this {
      Controller(cfg, configuredSendRate, currentRate, currentWindow, smoothedRttMs, lastLossMs, lastBackpressureMs)
    }

    constructor (cfg: CongestionConfig, sendRate: nat)
      ensures Value() == Configure(cfg, sendRate)
    {
      this.cfg, configuredSendRate := cfg, Max(1, sendRate);
      currentRate, currentWindow := 1, 0;
      new;
      ResetRuntime();
    }

    function ConfiguredMaxRate(): (r: nat)
      reads this
      ensures r == MaxRate(Value())
    {
      if !cfg.enabled then configuredSendRate
      else if cfg.maxRate == 0 then configuredSendRate else cfg.maxRate
    }

    function ConfiguredMinRate(maxRate: nat): (r: nat)
      reads this
      ensures maxRate == MaxRate(Value()) ==> r == MinRate(Value())
    {
      if !cfg.enabled then configuredSendRate else Min(Max(1, cfg.minRate), maxRate)
    }

    function RateBytesPerSecond(): (r: nat)
      reads this
      ensures r == Rate(Value())
    {
      if cfg.enabled then currentRate else configuredSendRate
    }

    function BucketCapBytes(): (r: nat)
      reads this
      ensures r == BucketCap(Value())
    {
      Max(MAX_PACKET_BYTES, RateBytesPerSecond() * 2)
    }

    method ResetRuntime()
      requires configuredSendRate >= 1
      modifies this
      ensures Value() == Configure(old(cfg), old(configuredSendRate))
      ensures cfg.Valid(configuredSendRate) ==> Valid(Value())
    {
      var maxRate := ConfiguredMaxRate();
      var minRate := ConfiguredMinRate(maxRate);
      var initialRate := if cfg.initialRate != 0 then cfg.initialRate else Max(minRate, maxRate / 2);
      currentRate := if cfg.enabled then Clamp(initialRate, minRate, maxRate) else configuredSendRate;
      smoothedRttMs, lastLossMs, lastBackpressureMs := 100, 0, 0;
      UpdateWindow();
    }

    method UpdateWindow()
      modifies `currentWindow
      ensures Value() == WithWindow(old(Value()))
    {
      if !cfg.enabled {
        currentWindow := BucketCapBytes();
        return;
      }
      var maxRate := ConfiguredMaxRate();
      var rtt: nat := Max(25, if smoothedRttMs == 0 then 100 else smoothedRttMs);
      var product := Max(MAX_PACKET_BYTES, W64(currentRate * rtt) / 1000);
      var maxWindow := if cfg.maxWindow != 0 then cfg.maxWindow else Max(cfg.minWindow, maxRate * 2);
      currentWindow := Clamp(product, cfg.minWindow, maxWindow);
    }

    method ApplyDecrease(perMille: nat)
      modifies `currentRate, `currentWindow
      ensures Value() == Decrease(old(Value()), perMille)
    {
      var maxRate := ConfiguredMaxRate();
      var minRate := ConfiguredMinRate(maxRate);
      var decreased := currentRate * perMille / 1000;
      currentRate := Clamp(Max(1, decreased), minRate, maxRate);
      UpdateWindow();
    }

    method Ack(sample: Option<nat>, retransmitted: bool)
      modifies this
      ensures Value() == OnAck(old(Value()), sample, retransmitted)
      ensures old(Valid(Value())) ==> Valid(Value()) && Rate(Value()) >= old(Rate(Value()))
    {
      ghost var before := Value();
      if Valid(before) { AckStaysInBounds(before, sample, retransmitted); }
      if !cfg.enabled { return; }
      if sample.Some? && sample.value > 0 {
        if smoothedRttMs == 0 {
          smoothedRttMs := sample.value;
        } else {
          smoothedRttMs := W64(W64(smoothedRttMs * 7) + sample.value) / 8;
        }
      }
      if !retransmitted {
        var maxRate := ConfiguredMaxRate();
        currentRate := Min(maxRate, currentRate + Max(1, cfg.additiveIncrease));
        UpdateWindow();
      }
    }

    method Loss(now: nat, count: nat)
      modifies this
      ensures Value() == OnLoss(old(Value()), now, count)
      ensures old(Valid(Value())) ==> Valid(Value()) && Rate(Value()) <= old(Rate(Value()))
    {
      ghost var before := Value();
      if Valid(before) { LossStaysInBounds(before, now, count); }
      if !cfg.enabled || count == 0 { return; }
      if lastLossMs != 0 && now >= lastLossMs && now - lastLossMs < cfg.lossCooldownMs { return; }
      lastLossMs := now;
      ApplyDecrease(cfg.lossDecreasePerMille);
    }

    method Backpressure(now: nat)
      modifies this
      ensures Value() == OnBackpressure(old(Value()), now)
      ensures old(Valid(Value())) ==> Valid(Value()) && Rate(Value()) <= old(Rate(Value()))
    {
      ghost var before := Value();
      if Valid(before) { BackpressureStaysInBounds(before, now); }
      if !cfg.enabled { return; }
      if lastBackpressureMs != 0 && now >= lastBackpressureMs && now - lastBackpressureMs < cfg.backpressureCooldownMs {
        return;
      }
      lastBackpressureMs := now;
      ApplyDecrease(cfg.backpressureDecreasePerMille);
    }
  }
}
