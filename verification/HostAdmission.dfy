/** Host sources and the per-source limit on connections that have not registered yet
    (crates/server/src/host_admission.rs). */
module HostAdmission {
  import opened Common

  type Octets4 = s: seq<byte> | |s| == 4 witness [0, 0, 0, 0]
  type Octets8 = s: seq<byte> | |s| == 8 witness seq(8, _ => 0)
  type Octets16 = s: seq<byte> | |s| == 16 witness seq(16, _ => 0)

  datatype IpAddr = V4(v4: Octets4) | V6(v6: Octets16)

  /** What a host is charged as: an IPv4 address, or the /64 network of an IPv6 address. */
  datatype HostSource = V4Host(address: Octets4) | V6Network(prefix: Octets8)

  /** The IPv4-mapped addresses `::ffff:a.b.c.d`. */
  predicate IsV4Mapped(o: Octets16) {
    (forall i | 0 <= i < 10 :: o[i] == 0) && o[10] == 0xFF && o[11] == 0xFF
  }

  function SourceOf(ip: IpAddr): HostSource {
    match ip
    case V4(o) => V4Host(o)
    case V6(o) => if IsV4Mapped(o) then V4Host(o[12..]) else V6Network(o[..8])
  }

  /** IPv4 addresses are charged each alone; an IPv6 address is charged like an IPv4 address exactly
      if it is that address mapped; other IPv6 addresses share a source exactly with their /64
      network. */
  lemma SameSource(a: Octets16, b: Octets16, v4: Octets4, w4: Octets4)
    ensures SourceOf(V4(v4)) == SourceOf(V4(w4)) <==> v4 == w4
    ensures SourceOf(V6(a)) == SourceOf(V4(v4)) <==> a == [0, 0, 0, 0, 0, 0, 0, 0, 0, 0, 0xFF, 0xFF] + v4
    ensures !IsV4Mapped(a) && !IsV4Mapped(b) ==>
              (SourceOf(V6(a)) == SourceOf(V6(b)) <==> forall i :: 0 <= i < 8 ==> a[i] == b[i])
  {
    assert a == a[..12] + a[12..];
    var mapped := [0, 0, 0, 0, 0, 0, 0, 0, 0, 0, 0xFF, 0xFF];
    assert IsV4Mapped(a) <==> a[..12] == mapped by {
      assert IsV4Mapped(a) ==> forall i :: 0 <= i < 12 ==> a[..12][i] == mapped[i];
      assert a[..12] == mapped ==> forall i :: 0 <= i < 12 ==> a[i] == mapped[i];
    }
    assert (mapped + v4)[..12] == mapped && (mapped + v4)[12..] == v4;
    assert (a[..8] == b[..8]) <==> forall i :: 0 <= i < 8 ==> a[..8][i] == b[..8][i];
  }

  // ---- Connections that have not registered yet ----

  type Counts = map<HostSource, nat>

  function CountOf(counts: Counts, source: HostSource): nat {
    if source in counts then counts[source] else 0
  }

  /** `try_acquire`: looking a source up creates its entry, even when the permit is refused. */
  function Acquired(limit: nat, counts: Counts, source: HostSource): (Counts, bool) {
    var count := CountOf(counts, source);
    if count >= limit then (counts[source := count], false) else (counts[source := count + 1], true)
  }

  /** Dropping a permit; nothing if its count would underflow. */
  function Released(counts: Counts, source: HostSource): Option<Counts> {
    if source !in counts then Some(counts)
    else if counts[source] == 0 then None
    else if counts[source] == 1 then Some(counts - {source})
    else Some(counts[source := counts[source] - 1])
  }

  class PendingByIp {
    const limit: nat
    var counts: Counts

    constructor (limit: nat)
      ensures this.limit == limit && counts == map[]
    {
      this.limit, counts := limit, map[];
    }

    method TryAcquire(ip: IpAddr) returns (permit: Option<HostSource>)
      modifies this
      ensures counts == Acquired(limit, old(counts), SourceOf(ip)).0
      ensures permit == if CountOf(old(counts), SourceOf(ip)) < limit then Some(SourceOf(ip)) else None
      ensures CountOf(counts, SourceOf(ip)) == CountOf(old(counts), SourceOf(ip)) + if permit.Some? then 1 else 0
      ensures forall s | s != SourceOf(ip) :: CountOf(counts, s) == CountOf(old(counts), s)
    {
      var source := SourceOf(ip);
      if source !in counts {
        counts := counts[source := 0];
      }
      if counts[source] >= limit {
        return None;
      }
      counts := counts[source := counts[source] + 1];
      return Some(source);
    }

    method DropPermit(permit: HostSource)
      requires Released(counts, permit).Some?
      modifies this
      ensures Some(counts) == Released(old(counts), permit)
      ensures CountOf(counts, permit) == if permit in old(counts) then old(counts)[permit] - 1 else 0
      ensures forall s | s != permit :: CountOf(counts, s) == CountOf(old(counts), s)
    {
      if permit !in counts {
        return;
      }
      counts := counts[permit := counts[permit] - 1];
      if counts[permit] == 0 {
        counts := counts - {permit};
        assert counts == old(counts) - {permit};
      }
    }
  }

  // ---- The accept loop of the relay, as far as permits go ----

  const PENDING_LIMIT: nat := 128

  /** The counts, the permits held by registration tasks, and the free global permits. */
  datatype Admission = Admission(counts: Counts, held: multiset<HostSource>, free: nat)

  datatype Arrival = Incoming(source: HostSource) | Settled(source: HostSource)

  /** One event; nothing if a count underflows. */
  ghost function Admit(limit: nat, a: Admission, e: Arrival): Option<Admission> {
    match e
    case Incoming(source) =>
      if a.free == 0 then Some(a)
      else
        var (counts, admitted) := Acquired(limit, a.counts, source);
        Some(if admitted then Admission(counts, a.held + multiset{source}, a.free - 1) else a.(counts := counts))
    case Settled(source) =>
      var counts := Released(a.counts, source);
      if counts.None? then None
      else Some(Admission(counts.value, a.held - multiset{source}, a.free + 1))
  }

  /** Each count is the number of live permits of its source, between 1 and the limit; global
      permits are conserved. */
  ghost predicate Conserved(limit: nat, a: Admission) {
    && (forall s :: s in a.counts <==> s in a.held)
    && (forall s | s in a.counts :: a.counts[s] == a.held[s] <= limit)
    && |a.held| + a.free == PENDING_LIMIT
  }

  ghost function AdmitAll(limit: nat, a: Admission, events: seq<Arrival>): Option<Admission>
    decreases |events|
  {
    if events == [] then Some(a)
    else
      var next := Admit(limit, a, events[0]);
      if next.None? then None else AdmitAll(limit, next.value, events[1..])
  }

  /** Only permits that are held get dropped. */
  ghost predicate Orderly(limit: nat, a: Admission, events: seq<Arrival>)
    decreases |events|
  {
    events != [] ==>
      && (events[0].Settled? ==> events[0].source in a.held)
      && (Admit(limit, a, events[0]).Some? ==> Orderly(limit, Admit(limit, a, events[0]).value, events[1..]))
  }

  /** A host is admitted if and only if fewer than 128 permits are out in all and fewer than the limit
      for its own source; it then has one more, and nobody else is affected. */
  lemma IncomingAdmitted(limit: nat, a: Admission, source: HostSource)
    requires Conserved(limit, a)
    ensures var a' := Admit(limit, a, Incoming(source));
            && a'.Some?
            && a'.value.held == (if |a.held| < 128 && a.held[source] < limit then a.held + multiset{source} else a.held)
            && |a'.value.held| + a'.value.free == 128
  {
    assert |a.held + multiset{source}| == |a.held| + 1;
  }

  lemma IncomingConserves(limit: nat, a: Admission, source: HostSource)
    requires limit >= 1 && Conserved(limit, a)
    ensures Conserved(limit, Admit(limit, a, Incoming(source)).value)
  {
    assert |a.held + multiset{source}| == |a.held| + 1;
  }

  lemma SettledConserves(limit: nat, a: Admission, source: HostSource)
    requires Conserved(limit, a) && source in a.held
    ensures Admit(limit, a, Settled(source)).Some? && Conserved(limit, Admit(limit, a, Settled(source)).value)
  {
    assert |a.held - multiset{source}| == |a.held| - 1;
  }

  lemma AdmitConserves(limit: nat, a: Admission, e: Arrival)
    requires limit >= 1 && Conserved(limit, a) && (e.Settled? ==> e.source in a.held)
    ensures Admit(limit, a, e).Some? && Conserved(limit, Admit(limit, a, e).value)
  {
    match e
    case Incoming(source) => IncomingConserves(limit, a, source);
    case Settled(source) => SettledConserves(limit, a, source);
  }

  /** Over every sequence of arrivals and settled registrations no drop underflows, the counts are
      exact, no source exceeds the limit, and at most 128 permits are out in all. */
  lemma {:induction false} RunConserves(limit: nat, a: Admission, events: seq<Arrival>)
    requires limit >= 1 && Conserved(limit, a) && Orderly(limit, a, events)
    ensures AdmitAll(limit, a, events).Some?
    ensures Conserved(limit, AdmitAll(limit, a, events).value)
    ensures |AdmitAll(limit, a, events).value.held| <= PENDING_LIMIT
    decreases |events|
  {
    if events != [] {
      AdmitConserves(limit, a, events[0]);
      RunConserves(limit, Admit(limit, a, events[0]).value, events[1..]);
    }
  }

  /** With limit 0 nothing is admitted, but each refused source leaves an entry behind: the counts
      are conserved by refusals exactly when the limit is positive. */
  lemma RefusalConserves(limit: nat, a: Admission, source: HostSource)
    requires Conserved(limit, a) && a.free > 0 && !Acquired(limit, a.counts, source).1
    ensures Conserved(limit, Admit(limit, a, Incoming(source)).value) <==> limit >= 1
  {
    if limit == 0 {
      assert source !in a.held;
    }
  }
}
