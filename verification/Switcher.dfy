/**
 The service switcher (pipeline/switcher.go): which of several services is active, which is next when it
 fails, and which of the copies handed to the others are dropped on their way out.
 */
module Switcher {
  import opened Wrappers

  // ---------------------------------------------------------------- the ring of copies handed out

  const RING: nat := 64

  function RememberIn(ring: seq<nat>, id: nat): seq<nat> {
    (if |ring| == RING then ring[1..] else ring) + [id]
  }

  /** Where id comes first in ring, or its length. */
  function IndexOf(ring: seq<nat>, id: nat): (i: nat)
    ensures i <= |ring| && (i < |ring| <==> id in ring)
    ensures i < |ring| ==> ring[i] == id
    ensures forall j :: 0 <= j < i ==> ring[j] != id
  {
    if ring == [] || ring[0] == id then 0 else 1 + IndexOf(ring[1..], id)
  }

  function ConsumeFrom(ring: seq<nat>, id: nat): seq<nat> {
    var i := IndexOf(ring, id);
    if i == |ring| then ring else ring[..i] + ring[i + 1..]
  }

  /** A copy is handed to an inactive service, or a frame with some id comes out of the branches. */
  datatype Op = Remember(id: nat) | Consume(id: nat)

  function Ring(ops: seq<Op>): seq<nat> {
    if ops == [] then []
    else
      var before, op := Ring(ops[..|ops| - 1]), ops[|ops| - 1];
      if op.Remember? then RememberIn(before, op.id) else ConsumeFrom(before, op.id)
  }

  function Remembers(ops: seq<Op>): nat {
    if ops == [] then 0 else Remembers(ops[..|ops| - 1]) + if ops[|ops| - 1].Remember? then 1 else 0
  }

  lemma {:induction false} RingIsBounded(ops: seq<Op>)
    ensures |Ring(ops)| <= RING
  {
    if ops != [] {
      RingIsBounded(ops[..|ops| - 1]);
    }
  }

  /** Every copy has an id of its own. */
  ghost predicate OwnIds(ops: seq<Op>) {
    forall i, j :: 0 <= i < j < |ops| && ops[i].Remember? && ops[j].Remember? ==> ops[i].id != ops[j].id
  }

  /** Op number k remembered id, and nothing with that id has come out since. */
  ghost predicate Outstanding(ops: seq<Op>, k: nat, id: nat) {
    k < |ops| && ops[k] == Remember(id) && forall j :: k < j < |ops| ==> ops[j] != Consume(id)
  }

  /** What is in the ring is a copy handed out that has not come out: so nothing else is dropped for one. */
  lemma {:induction false} OnlyCopiesAreDropped(ops: seq<Op>)
    requires OwnIds(ops)
    ensures forall id :: id in Ring(ops) ==> exists k: nat :: Outstanding(ops, k, id)
    ensures forall i, j :: 0 <= i < j < |Ring(ops)| ==> Ring(ops)[i] != Ring(ops)[j]
  {
    if ops != [] {
      var n := |ops| - 1;
      var before, op := Ring(ops[..n]), ops[n];
      OnlyCopiesAreDropped(ops[..n]);
      if op.Remember? {
        forall id | id in before ensures id != op.id {
          var k: nat :| Outstanding(ops[..n], k, id);
          assert ops[k] == Remember(id);
        }
        forall i | 0 <= i < |before| ensures before[i] != op.id {
          assert before[i] in before;
        }
      } else {
        ConsumedIsGone(before, op.id);
      }
      forall id | id in Ring(ops) ensures exists k: nat :: Outstanding(ops, k, id) {
        if op == Remember(id) {
          assert Outstanding(ops, n, id);
        } else {
          assert id in before;
          var k: nat :| Outstanding(ops[..n], k, id);
          assert Outstanding(ops, k, id);
        }
      }
    }
  }

  lemma ConsumedIsGone(ring: seq<nat>, id: nat)
    requires forall i, j :: 0 <= i < j < |ring| ==> ring[i] != ring[j]
    ensures id !in ConsumeFrom(ring, id)
    ensures forall i, j :: 0 <= i < j < |ConsumeFrom(ring, id)| ==> ConsumeFrom(ring, id)[i] != ConsumeFrom(ring, id)[j]
    ensures forall other :: other in ConsumeFrom(ring, id) ==> other in ring
  {
  }

  /** A copy's distance from the end of the ring is at most the number of copies remembered after it: so it is
      still there, and dropped, whenever it comes out before RING later ones are remembered. */
  lemma {:induction false} ComesOutInTime(ops: seq<Op>, k: nat, id: nat)
    requires Outstanding(ops, k, id) && OwnIds(ops) && Remembers(ops) < Remembers(ops[..k + 1]) + RING
    ensures id in Ring(ops) && |Ring(ops)| - IndexOf(Ring(ops), id) <= Remembers(ops) - Remembers(ops[..k + 1]) + 1
  {
    var n := |ops| - 1;
    var before, op := Ring(ops[..n]), ops[n];
    RingIsBounded(ops[..n]);
    if k == n {
      assert ops[..k + 1] == ops;
      OnlyCopiesAreDropped(ops);
      assert Ring(ops)[|Ring(ops)| - 1] == id;
    } else {
      assert ops[..n][..k + 1] == ops[..k + 1];
      assert ops[n] != Consume(id);
      ComesOutInTime(ops[..n], k, id);
      if op.Remember? {
        RememberKeeps(before, op.id, id);
      } else {
        ConsumeKeeps(before, op.id, id);
      }
    }
  }

  lemma IndexIs(ring: seq<nat>, id: nat, i: nat)
    requires i < |ring| && ring[i] == id && forall j :: 0 <= j < i ==> ring[j] != id
    ensures IndexOf(ring, id) == i
  {
  }

  lemma RememberKeeps(before: seq<nat>, other: nat, id: nat)
    requires id in before && |before| <= RING && (|before| == RING ==> before[0] != id)
    ensures var after := RememberIn(before, other);
            id in after && |after| - IndexOf(after, id) <= |before| - IndexOf(before, id) + 1
  {
    var drop := if |before| == RING then 1 else 0;
    assert RememberIn(before, other) == before[drop..] + [other];
    IndexIs(before[drop..] + [other], id, IndexOf(before, id) - drop);
  }

  lemma ConsumeKeeps(before: seq<nat>, other: nat, id: nat)
    requires id in before && other != id
    ensures var after := ConsumeFrom(before, other);
            id in after && |after| - IndexOf(after, id) <= |before| - IndexOf(before, id)
  {
    var i, c := IndexOf(before, id), IndexOf(before, other);
    if c < |before| {
      IndexIs(before[..c] + before[c + 1..], id, if c < i then i - 1 else i);
    }
  }

  /** With nothing coming out, the ring is the last RING ids remembered: one more loses a copy. */
  lemma {:induction false} RingIsTheLatest(ids: seq<nat>)
    ensures var ops := seq(|ids|, i requires 0 <= i < |ids| => Remember(ids[i]));
            Ring(ops) == ids[if |ids| <= RING then 0 else |ids| - RING..]
  {
    var ops := seq(|ids|, i requires 0 <= i < |ids| => Remember(ids[i]));
    if ids != [] {
      var n := |ids| - 1;
      RingIsTheLatest(ids[..n]);
      assert ops[..n] == seq(|ids[..n]|, i requires 0 <= i < |ids[..n]| => Remember(ids[..n][i]));
      assert ids == ids[..n] + [ids[n]];
    }
  }

  // ---------------------------------------------------------------- which service is next

  /** The place offset steps on from another, wrapping around. */
  function Place(n: nat, from: nat, offset: nat): (k: nat)
    requires n > 0
    ensures k < n
  {
    (from + offset) % n
  }

  /** Services are known by identity; usable is the set of those that can be given work. */
  function Cyclic(services: seq<nat>, from: nat, offset: nat): nat
    requires services != []
  {
    services[Place(|services|, from, offset)]
  }

  lemma PlaceIs(n: nat, from: nat, offset: nat)
    requires from < n && offset < n
    ensures Place(n, from, offset) == if from + offset < n then from + offset else from + offset - n
  {
    if from + offset >= n {
      assert from + offset == n + (from + offset - n);
      assert (from + offset - n) % n == from + offset - n;
    }
  }

  /** Walking on from one place visits every other place once, and not itself. */
  lemma WalkVisitsOthersOnce(n: nat, from: nat)
    requires from < n
    ensures forall k: nat :: k < n && k != from ==> VisitedOnce(n, from, k)
    ensures forall o :: 1 <= o < n ==> Place(n, from, o) != from
  {
    forall k: nat | k < n && k != from ensures VisitedOnce(n, from, k) {
      VisitsOnce(n, from, k);
    }
    forall o | 1 <= o < n ensures Place(n, from, o) != from {
      PlaceIs(n, from, o);
    }
  }

  lemma VisitsOnce(n: nat, from: nat, k: nat)
    requires from < n && k < n && k != from
    ensures VisitedOnce(n, from, k)
  {
    var o := if k > from then k - from else k + n - from;
    PlaceIs(n, from, o);
    forall p | 1 <= p < n && Place(n, from, p) == k ensures p == o {
      PlaceIs(n, from, p);
    }
  }

  ghost predicate VisitedOnce(n: nat, from: nat, k: nat)
    requires n > 0
  {
    exists o :: 1 <= o < n && Place(n, from, o) == k && forall p :: 1 <= p < n && Place(n, from, p) == k ==> p == o
  }

  /** c is the first usable service after the one at from. */
  ghost predicate IsNext(services: seq<nat>, usable: set<nat>, from: nat, c: nat)
    requires from < |services|
  {
    exists o :: 1 <= o < |services| && c == Cyclic(services, from, o) && c in usable
                && forall p :: 1 <= p < o ==> Cyclic(services, from, p) !in usable
  }

  ghost predicate Distinct(services: seq<nat>) {
    forall i, j :: 0 <= i < j < |services| ==> services[i] != services[j]
  }

  class Strategy {
    const services: seq<nat>
    /** It moves on when the active service fails. */
    const failover: bool
    var active: nat
    /** Every service the callback was told of. */
    ghost var switches: seq<nat>

    ghost predicate Valid()
      reads this
    {
      active in services && Distinct(services)
    }

    constructor (services: seq<nat>, failover: bool)
      requires services != [] && Distinct(services)
      ensures Valid() && this.services == services && this.failover == failover && active == services[0] && switches == []
    {
      this.services, this.failover := services, failover;
      active, switches := services[0], [];
    }

    /** Switches to a member that can be given work; anything else is left alone. */
    method SetActiveIfAvailable(target: nat, usable: set<nat>) returns (switched: Option<nat>)
      requires Valid()
      modifies this`active, this`switches
      ensures Valid()
      ensures if target in services && target in usable then
                switched == Some(target) && active == target && switches == old(switches) + [target]
              else switched == None && active == old(active) && switches == old(switches)
    {
      var i := 0;
      while i < |services| && services[i] != target
        invariant i <= |services| && forall j :: 0 <= j < i ==> services[j] != target
      {
        i := i + 1;
      }
      if i == |services| || services[i] !in usable {
        return None;
      }
      active := services[i];
      switches := switches + [services[i]];
      return Some(services[i]);
    }

    /** HandleError: source is the failed service, when the error names one. Failover activates the cyclically
        first other usable service, and changes nothing when there is none, or when the failed one still works. */
    method HandleError(source: Option<nat>, usable: set<nat>) returns (switched: Option<nat>)
      requires Valid()
      modifies this`active, this`switches
      ensures Valid()
      ensures var failed := if source.Some? then source.value else old(active);
              switched.Some? <==>
              failover && failed !in usable && exists s :: s in services && s != old(active) && s in usable
      ensures switched == None ==> active == old(active) && switches == old(switches)
      ensures switched.Some? ==>
                active == switched.value && active != old(active) && switches == old(switches) + [active]
                && exists from :: 0 <= from < |services| && services[from] == old(active) && IsNext(services, usable, from, active)
    {
      if !failover {
        return None;
      }
      var failed := if source.Some? then source.value else active;
      if failed in usable {
        return None;
      }
      var idx := 0;
      while services[idx] != active
        invariant 0 <= idx < |services| && forall j :: 0 <= j < idx ==> services[j] != active
        decreases |services| - idx
      {
        if idx + 1 == |services| {
          assert false;
        }
        idx := idx + 1;
      }
      WalkVisitsOthersOnce(|services|, idx);
      ghost var from := idx;
      var offset := 1;
      while offset < |services|
        invariant 1 <= offset && active == old(active) && switches == old(switches)
        invariant forall p :: 1 <= p < offset && p < |services| ==> Cyclic(services, from, p) !in usable
      {
        var candidate := services[(idx + offset) % |services|];
        if candidate in usable {
          assert candidate == Cyclic(services, from, offset);
          assert IsNext(services, usable, from, candidate);
          switched := SetActiveIfAvailable(candidate, usable);
          return;
        }
        offset := offset + 1;
      }
      forall s | s in services && s != active ensures s !in usable {
        var k :| 0 <= k < |services| && services[k] == s;
        assert VisitedOnce(|services|, from, k);
        var o :| 1 <= o < |services| && Place(|services|, from, o) == k;
        assert Cyclic(services, from, o) == s;
      }
      return None;
    }
  }

  // ---------------------------------------------------------------- the switcher

  /** Whom a settings update is for. */
  datatype Update = Update(service: Option<nat>, reachInactive: bool)

  /** What comes out of the branches. */
  datatype Out =
    | MetadataRequest(target: nat)
    | Metadata(id: nat, service: nat)
    | Settings(id: nat)
    | Error(fatal: bool, source: Option<nat>)
    | Plain

  /** What becomes of it: it leaves, is dropped, or is replaced by an error of the switcher's own. */
  datatype Fate = Leaves | Dropped | ReportedAsOwn

  /** An error from a member held in reserve stops here; one from the active service leaves while it still
      works, is absorbed by a switch, and is the switcher's own when there is none to make. */
  ghost function ErrorFate(services: seq<nat>, active: nat, failover: bool, usable: set<nat>, fatal: bool, source: Option<nat>): Fate {
    if fatal || source == None then Leaves
    else if source.value != active then if source.value in services then Dropped else Leaves
    else if active in usable then Leaves
    else if failover && exists s :: s in services && s != active && s in usable then Dropped
    else ReportedAsOwn
  }

  /** No member is handed two copies, and each its own. */
  predicate OneCopyEach(handed: seq<(nat, nat)>, services: seq<nat>, copies: map<nat, nat>) {
    (forall i :: 0 <= i < |handed| ==> handed[i].0 in services && handed[i].0 in copies && handed[i].1 == copies[handed[i].0])
    && forall i, j :: 0 <= i < j < |handed| ==> handed[i].0 != handed[j].0
  }

  /** An error leaves unless it comes from a member in reserve, or from the active service once that no longer
      works; the active service's is absorbed exactly when there is another to switch to. */
  lemma ErrorLeavesIff(services: seq<nat>, active: nat, failover: bool, usable: set<nat>, fatal: bool, source: Option<nat>)
    requires active in services
    ensures var fate := ErrorFate(services, active, failover, usable, fatal, source);
            (fate == Leaves <==> fatal || source == None || source.value !in services || (source.value == active && active in usable))
            && (fate == ReportedAsOwn <==>
                  !fatal && source == Some(active) && active !in usable
                  && (failover ==> forall s :: s in services && s in usable ==> s == active))
  {
  }

  class ServiceSwitcher {
    const strategy: Strategy
    var inactiveUpdates: seq<nat>
    var inactiveMetadata: seq<nat>
    var announcedUsable: bool
    /** The readings announced, in order. */
    ghost var announcements: seq<bool>

    ghost predicate Valid()
      reads this, strategy
    {
      strategy.Valid() && |inactiveUpdates| <= RING && |inactiveMetadata| <= RING
      && announcements != [] && announcedUsable == announcements[|announcements| - 1]
      && forall i :: 0 < i < |announcements| ==> announcements[i] != announcements[i - 1]
    }

    constructor (services: seq<nat>, failover: bool, usable: set<nat>)
      requires services != [] && Distinct(services)
      ensures Valid() && fresh(strategy) && strategy.services == services && inactiveUpdates == inactiveMetadata == []
      ensures announcements == [exists s :: s in services && s in usable]
    {
      strategy := new Strategy(services, failover);
      inactiveUpdates, inactiveMetadata := [], [];
      var reading := false;
      for i := 0 to |services|
        invariant reading <==> exists j :: 0 <= j < i && services[j] in usable
      {
        if services[i] in usable {
          reading := true;
        }
      }
      announcedUsable := reading;
      announcements := [reading];
    }

    /** The switcher is usable as long as some service is. */
    method Usable(usable: set<nat>) returns (u: bool)
      ensures u <==> exists s :: s in strategy.services && s in usable
    {
      for i := 0 to |strategy.services|
        invariant forall j :: 0 <= j < i ==> strategy.services[j] !in usable
      {
        if strategy.services[i] in usable {
          return true;
        }
      }
      return false;
    }

    /** A change of reading is announced once. */
    method AnnounceUsable(usable: set<nat>)
      requires Valid()
      modifies this`announcedUsable, this`announcements
      ensures Valid() && (announcedUsable <==> exists s :: s in strategy.services && s in usable)
      ensures announcements == old(announcements) + if announcedUsable == old(announcedUsable) then [] else [announcedUsable]
    {
      var u := Usable(usable);
      if u == announcedUsable {
        return;
      }
      announcedUsable := u;
      announcements := announcements + [u];
    }

    static method Remember(ring: seq<nat>, id: nat) returns (r: seq<nat>)
      ensures r == RememberIn(ring, id)
    {
      r := ring;
      if |r| == RING {
        r := r[1..];
      }
      r := r + [id];
    }

    static method Consume(ring: seq<nat>, id: nat) returns (r: seq<nat>, found: bool)
      ensures r == ConsumeFrom(ring, id) && (found <==> id in ring)
    {
      for i := 0 to |ring|
        invariant forall j :: 0 <= j < i ==> ring[j] != id
      {
        if ring[i] == id {
          assert i == IndexOf(ring, id);
          return ring[..i] + ring[i + 1..], true;
        }
      }
      return ring, false;
    }

    /** The members not in use, in order. */
    method Inactive() returns (inactive: seq<nat>)
      requires Valid()
      ensures Distinct(inactive) && forall s :: s in inactive <==> s in strategy.services && s != strategy.active
    {
      inactive := [];
      for i := 0 to |strategy.services|
        invariant Distinct(inactive)
        invariant forall s :: s in inactive <==> s in strategy.services[..i] && s != strategy.active
      {
        assert strategy.services[i] !in strategy.services[..i];
        if strategy.services[i] != strategy.active {
          inactive := inactive + [strategy.services[i]];
        }
      }
      assert strategy.services[..|strategy.services|] == strategy.services;
    }

    /** An addressed update goes to its service alone; any other only if it opts in; the active one gets its
        own through its branch. */
    method InactiveUpdateTargets(u: Update) returns (targets: seq<nat>)
      requires Valid()
      ensures Distinct(targets)
      ensures forall s :: s in targets <==>
                          s in strategy.services && s != strategy.active
                          && if u.service.Some? then u.service.value == s else u.reachInactive
    {
      var inactive := Inactive();
      if u.service.Some? {
        for i := 0 to |inactive|
          invariant forall j :: 0 <= j < i ==> inactive[j] != u.service.value
        {
          if inactive[i] == u.service.value {
            return [inactive[i]];
          }
        }
        return [];
      }
      if u.reachInactive {
        return inactive;
      }
      return [];
    }

    /** Hands each target a copy, whose ids are copies, and remembers them. */
    method UpdateInactiveServices(u: Update, copies: map<nat, nat>) returns (handed: seq<(nat, nat)>)
      requires Valid() && forall s :: s in strategy.services ==> s in copies
      modifies this`inactiveUpdates
      ensures Valid()
      ensures forall s :: s in strategy.services && s != strategy.active
                          && (if u.service.Some? then u.service.value == s else u.reachInactive) <==>
                          s in strategy.services && (s, copies[s]) in handed
      ensures inactiveUpdates == RememberAll(old(inactiveUpdates), handed)
      ensures OneCopyEach(handed, strategy.services, copies)
    {
      var targets := InactiveUpdateTargets(u);
      handed := [];
      for i := 0 to |targets|
        invariant Valid() && |handed| == i && forall j :: 0 <= j < i ==> handed[j] == (targets[j], copies[targets[j]])
        invariant inactiveUpdates == RememberAll(old(inactiveUpdates), handed)
      {
        var copy := copies[targets[i]];
        inactiveUpdates := Remember(inactiveUpdates, copy);
        handed := handed + [(targets[i], copy)];
        assert handed[..i] == handed[..|handed| - 1];
      }
      forall s | s in targets ensures (s, copies[s]) in handed {
        var j :| 0 <= j < |targets| && targets[j] == s;
        assert handed[j] == (s, copies[s]);
      }
      forall s | s in strategy.services && (s, copies[s]) in handed ensures s in targets {
        var j :| 0 <= j < |handed| && handed[j] == (s, copies[s]);
        assert targets[j] == s;
      }
    }

    /** Every member not in use gets a copy of metadata from outside. */
    method ShareMetadata(copies: map<nat, nat>) returns (handed: seq<(nat, nat)>)
      requires Valid() && forall s :: s in strategy.services ==> s in copies
      modifies this`inactiveMetadata
      ensures Valid()
      ensures forall s :: s in strategy.services && s != strategy.active <==> s in strategy.services && (s, copies[s]) in handed
      ensures inactiveMetadata == RememberAll(old(inactiveMetadata), handed)
      ensures OneCopyEach(handed, strategy.services, copies)
    {
      handed := [];
      for i := 0 to |strategy.services|
        invariant Valid() && inactiveMetadata == RememberAll(old(inactiveMetadata), handed)
        invariant forall j :: 0 <= j < i && strategy.services[j] != strategy.active ==>
                                (strategy.services[j], copies[strategy.services[j]]) in handed
        invariant forall h :: h in handed ==> h.0 != strategy.active
        invariant OneCopyEach(handed, strategy.services[..i], copies)
      {
        var svc := strategy.services[i];
        if svc == strategy.active {
          continue;
        }
        inactiveMetadata := Remember(inactiveMetadata, copies[svc]);
        ghost var before := handed;
        handed := handed + [(svc, copies[svc])];
        assert handed[..|handed| - 1] == before;
      }
      assert strategy.services[..|strategy.services|] == strategy.services;
    }

    /** handleServiceError. */
    method HandleServiceError(fatal: bool, source: Option<nat>, usable: set<nat>) returns (fate: Fate)
      requires Valid()
      modifies strategy
      ensures Valid()
      ensures fate == ErrorFate(strategy.services, old(strategy.active), strategy.failover, usable, fatal, source)
      ensures strategy.active != old(strategy.active) <==>
              !fatal && source == Some(old(strategy.active)) && fate == Dropped
    {
      if fatal || source == None {
        return Leaves;
      }
      if source.value != strategy.active {
        return if source.value in strategy.services then Dropped else Leaves;
      }
      var switched := strategy.HandleError(source, usable);
      if switched.Some? {
        return Dropped;
      }
      return if source.value !in usable then ReportedAsOwn else Leaves;
    }

    /** What leaves is the active service's alone: no copy handed to an inactive service does, nor an inactive
        member's own metadata or error; everything else does. */
    method PushFrame(f: Out, usable: set<nat>) returns (fate: Fate)
      requires Valid()
      modifies this`inactiveUpdates, this`inactiveMetadata, strategy
      ensures Valid()
      ensures match f
              case MetadataRequest(target) => fate == if target == old(strategy.active) then Dropped else Leaves
              case Metadata(id, service) =>
                fate == (if id in old(inactiveMetadata)
                            || (service != old(strategy.active) && service in strategy.services) then Dropped else Leaves)
              case Settings(id) => fate == if id in old(inactiveUpdates) then Dropped else Leaves
              case Error(fatal, source) =>
                fate == ErrorFate(strategy.services, old(strategy.active), strategy.failover, usable, fatal, source)
              case Plain => fate == Leaves
      ensures inactiveUpdates == if f.Settings? then ConsumeFrom(old(inactiveUpdates), f.id) else old(inactiveUpdates)
      ensures inactiveMetadata == if f.Metadata? then ConsumeFrom(old(inactiveMetadata), f.id) else old(inactiveMetadata)
      ensures !f.Error? ==> strategy.active == old(strategy.active)
    {
      match f
      case MetadataRequest(target) =>
        if target == strategy.active {
          return Dropped;
        }
        return Leaves;
      case Metadata(id, service) =>
        var found;
        inactiveMetadata, found := Consume(inactiveMetadata, id);
        if found {
          return Dropped;
        }
        if service != strategy.active && service in strategy.services {
          return Dropped;
        }
        return Leaves;
      case Settings(id) =>
        var found;
        inactiveUpdates, found := Consume(inactiveUpdates, id);
        if found {
          return Dropped;
        }
        return Leaves;
      case Error(fatal, source) =>
        fate := HandleServiceError(fatal, source, usable);
      case Plain => return Leaves;
    }
  }

  function RememberAll(ring: seq<nat>, handed: seq<(nat, nat)>): seq<nat> {
    if handed == [] then ring else RememberIn(RememberAll(ring, handed[..|handed| - 1]), handed[|handed| - 1].1)
  }
}
