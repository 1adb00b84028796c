// What a client hello does to the server's table, case by case and on the fields of the table.
module Admission {
  import opened Config
  import opened SessionTable
  import R = Reassembly

  // The sessions that evict_stale_sessions leaves: neither closed, nor closing and drained.
  ghost function Kept(policy: Policy, t: Table, now: nat): set<nat> {
    set id | id in t.sessions &&
      t.sessions[id].phase != Closed &&
      !(t.sessions[id].phase == Closing && t.sessions[id].lastSendMs != 0 &&
        Elapsed(now, t.sessions[id].lastSendMs) >= policy.closeDrainMs)
  }

  ghost function Among(t: Table, ids: set<nat>, host: string): set<nat> {
    set id | id in ids && id in t.sessions && t.sessions[id].endpoint.host == host
  }

  // The kept session of this endpoint, which a hello from it replaces.
  ghost function Older(t: Table, ids: set<nat>, from: Endpoint): set<nat> {
    set id | id in ids && id in t.sessions && t.sessions[id].endpoint == from
  }

  // Draw i is the first one that is neither zero nor taken.
  ghost predicate FreeAt(taken: set<nat>, draws: seq<nat>, i: nat) {
    i < |draws| && draws[i] != 0 && draws[i] !in taken && forall k | 0 <= k < i :: draws[k] == 0 || draws[k] in taken
  }

  lemma {:induction false} FirstFreeIs(taken: set<nat>, draws: seq<nat>) returns (i: nat)
    ensures FirstFree(taken, draws).Some? ==> FreeAt(taken, draws, i) && FirstFree(taken, draws).value == draws[i]
    ensures FirstFree(taken, draws).None? ==> forall k | 0 <= k < |draws| :: draws[k] == 0 || draws[k] in taken
  {
    i := 0;
    if draws != [] && (draws[0] == 0 || draws[0] in taken) {
      i := FirstFreeIs(taken, draws[1..]);
      i := i + 1;
    }
  }

  lemma SweptKeys(policy: Policy, t: Table, now: nat)
    requires IndexOk(t)
    ensures EvictStale(policy, t, now).sessions.Keys == Kept(policy, t, now)
  {
  }

  lemma SweptHost(policy: Policy, t: Table, now: nat, host: string)
    requires IndexOk(t)
    ensures OfHost(EvictStale(policy, t, now).sessions, host) == Among(t, Kept(policy, t, now), host)
  {
  }

  lemma ClearedKeys(policy: Policy, t: Table, now: nat, from: Endpoint)
    requires IndexOk(t)
    ensures var kept := Kept(policy, t, now);
      Cleared(EvictStale(policy, t, now), from).sessions.Keys == kept - Older(t, kept, from)
  {
    EvictStaleIndexOk(policy, t, now);
    SweptKeys(policy, t, now);
  }

  // A hello that is not admissible leaves the table alone, whatever the table is, with the verdict of its case.
  lemma TurnedAwayUnchanged(policy: Policy, t: Table, from: Endpoint, now: nat, papers: Papers, draws: seq<nat>,
                            answered: bool)
    requires IndexOk(t) && !Admissible(policy, papers)
    ensures OnHello(policy, t, from, now, papers, draws, answered) ==
      (t, if papers.retry != Absent && papers.resumption != Absent then Malformed
          else if papers.banned || papers.limited then Ignored
          else if papers.retry == TooOld then CookieExpired
          else AskedToRetry)
  {
  }

  // Which of the two limits stops an admissible hello, counted over the sessions that are kept.
  lemma LimitVerdict(policy: Policy, t: Table, from: Endpoint, now: nat, papers: Papers, draws: seq<nat>,
                     answered: bool)
    requires IndexOk(t) && Admissible(policy, papers)
    ensures var kept := Kept(policy, t, now);
      var (t', v) := OnHello(policy, t, from, now, papers, draws, answered);
      && (v == TableFull <==> |kept| >= policy.maxPeerSessions)
      && (v == HostFull <==> |kept| < policy.maxPeerSessions && |Among(t, kept, from.host)| >= policy.maxSessionsPerIp)
      && (v == TableFull || v == HostFull ==> t'.sessions.Keys == kept)
  {
    SweptKeys(policy, t, now);
    SweptHost(policy, t, now, from.host);
    var t1 := EvictStale(policy, t, now);
    assert |t1.sessions| == |t1.sessions.Keys|;
  }

  ghost predicate WithinBoth(policy: Policy, t: Table, kept: set<nat>, host: string) {
    |kept| < policy.maxPeerSessions && |Among(t, kept, host)| < policy.maxSessionsPerIp
  }

  ghost predicate Placed(rest: set<nat>, draws: seq<nat>, answered: bool, i: nat, t': Table, v: Verdict) {
    if forall k | 0 <= k < |draws| :: draws[k] == 0 || draws[k] in rest then v == NoId && t'.sessions.Keys == rest
    else
      && FreeAt(rest, draws, i)
      && if answered then v == Registered(draws[i]) && t'.sessions.Keys == rest + {draws[i]}
         else v == Unanswered && t'.sessions.Keys == rest
  }

  lemma PlaceVerdict(t: Table, from: Endpoint, now: nat, draws: seq<nat>, answered: bool) returns (i: nat)
    ensures var (t', v) := Place(t, from, now, draws, answered);
      Placed(Cleared(t, from).sessions.Keys, draws, answered, i, t', v)
  {
    i := FirstFreeIs(Cleared(t, from).sessions.Keys, draws);
  }

  // Past the limits, an admissible hello is placed among the kept sessions.
  lemma GoesToPlace(policy: Policy, t: Table, from: Endpoint, now: nat, papers: Papers, draws: seq<nat>, answered: bool)
    requires IndexOk(t) && Admissible(policy, papers) && WithinBoth(policy, t, Kept(policy, t, now), from.host)
    ensures OnHello(policy, t, from, now, papers, draws, answered) ==
      Place(EvictStale(policy, t, now), from, now, draws, answered)
  {
    SweptKeys(policy, t, now);
    SweptHost(policy, t, now, from.host);
    var t1 := EvictStale(policy, t, now);
    assert |t1.sessions| == |t1.sessions.Keys|;
  }

  // Within the limits: the older session goes, and the first free draw becomes the new one, if there is any and it was
  // answered.
  lemma PlacedVerdict(policy: Policy, t: Table, from: Endpoint, now: nat, papers: Papers, draws: seq<nat>,
                      answered: bool)
    returns (i: nat)
    requires IndexOk(t) && Admissible(policy, papers) && WithinBoth(policy, t, Kept(policy, t, now), from.host)
    ensures var kept := Kept(policy, t, now);
      var (t', v) := OnHello(policy, t, from, now, papers, draws, answered);
      Placed(kept - Older(t, kept, from), draws, answered, i, t', v)
  {
    GoesToPlace(policy, t, from, now, papers, draws, answered);
    ClearedKeys(policy, t, now, from);
    i := PlaceVerdict(EvictStale(policy, t, now), from, now, draws, answered);
  }

  // A hello adds a session if and only if it is admissible, both limits, counted over the kept sessions, leave room, a
  // draw is free, and its answer was queued.
  lemma HelloAddsIff(policy: Policy, t: Table, from: Endpoint, now: nat, papers: Papers, draws: seq<nat>,
                     answered: bool)
    requires IndexOk(t)
    ensures var kept := Kept(policy, t, now);
      OnHello(policy, t, from, now, papers, draws, answered).1.Registered? <==>
      && Admissible(policy, papers) && WithinBoth(policy, t, kept, from.host) && answered
      && exists k :: 0 <= k < |draws| && draws[k] != 0 && draws[k] !in kept - Older(t, kept, from)
  {
    if !Admissible(policy, papers) {
      TurnedAwayUnchanged(policy, t, from, now, papers, draws, answered);
    } else {
      LimitVerdict(policy, t, from, now, papers, draws, answered);
      if WithinBoth(policy, t, Kept(policy, t, now), from.host) {
        var i := PlacedVerdict(policy, t, from, now, papers, draws, answered);
      }
    }
  }

  // The new session starts its handshake under the next peer id and is what its endpoint leads to; every other one is
  // as it was.
  ghost predicate Leaves(t: Table, from: Endpoint, now: nat, t': Table, v: Verdict, id: nat) {
    id in t'.sessions ==>
      var p := t'.sessions[id];
      if v == Registered(id) then
        && p.endpoint == from && p.connId == id && p.peerId == t.nextPeerId && p.phase == Handshaking
        && p.createdMs == p.lastRecvMs == now && p.sendSequence == 1 && p.sealed == [] && p.reassembly == R.EMPTY
        && from in t'.index && t'.index[from] == id
      else id in t.sessions && p == t.sessions[id]
  }

  lemma PlaceLeaves(t: Table, from: Endpoint, now: nat, draws: seq<nat>, answered: bool, id: nat)
    ensures var (t', v) := Place(t, from, now, draws, answered); Leaves(t, from, now, t', v, id)
  {
  }

  lemma SweptIs(policy: Policy, t: Table, now: nat, id: nat)
    requires IndexOk(t)
    ensures var t1 := EvictStale(policy, t, now);
      t1.nextPeerId == t.nextPeerId && (id in t1.sessions ==> id in t.sessions && t1.sessions[id] == t.sessions[id])
  {
  }

  lemma LeavesFromSwept(t: Table, t1: Table, from: Endpoint, now: nat, t': Table, v: Verdict, id: nat)
    requires t1.nextPeerId == t.nextPeerId
    requires id in t1.sessions ==> id in t.sessions && t1.sessions[id] == t.sessions[id]
    requires Leaves(t1, from, now, t', v, id)
    ensures Leaves(t, from, now, t', v, id)
  {
  }

  lemma RegisterLeaves(policy: Policy, t: Table, t1: Table, from: Endpoint, now: nat, draws: seq<nat>, answered: bool,
                       id: nat)
    requires IndexOk(t) && t1 == EvictStale(policy, t, now)
    ensures var (t', v) := Register(policy, t, from, now, draws, answered); Leaves(t1, from, now, t', v, id)
  {
    PlaceLeaves(t1, from, now, draws, answered, id);
  }

  lemma HelloLeaves(policy: Policy, t: Table, from: Endpoint, now: nat, papers: Papers, draws: seq<nat>, answered: bool,
                    id: nat)
    requires IndexOk(t)
    ensures var (t', v) := OnHello(policy, t, from, now, papers, draws, answered); Leaves(t, from, now, t', v, id)
  {
    if Admissible(policy, papers) {
      var t1 := EvictStale(policy, t, now);
      var (t', v) := Register(policy, t, from, now, draws, answered);
      RegisterLeaves(policy, t, t1, from, now, draws, answered, id);
      SweptIs(policy, t, now, id);
      LeavesFromSwept(t, t1, from, now, t', v, id);
    }
  }
}
