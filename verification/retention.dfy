/** One sweep's bookkeeping: which torrents are alive, and which are evicted to get under the size cap. */
module Retention {
  import opened OrderedMaps
  import opened Wrappers

  type Hash = string

  // What deleteManaged finds when it runs: the record, whether the torrent is there, whether the title is
  // being played or has begun to be during the checks, and whether the ownership proof or a request to the
  // client or the store fails on the way.
  datatype Standing = Standing(record: Option<Lease>, present: bool, playing: bool, begun: bool, broken: bool)
  datatype Lease = Lease(kept: bool, expiresAt: int)

  datatype Reply = Removed | Spared | Threw

  // deleteManaged called by the size cap with the expiry seen in the listing: what its run comes back with is
  // derived from the protocol in evictions.dfy.
  function Evict(listedExpiry: int, s: Standing): Reply {
    if s.record.None? then Spared
    else if s.playing || s.broken then Threw
    else if !s.present then Removed
    else if s.begun || s.record.value.kept || s.record.value.expiresAt != listedExpiry then Spared
    else Removed
  }

  // ----- the torrents seen alive ------------------------------------------------------------------------

  type Live = OrderedMap<Hash, nat>

  function BytesOf(live: Live, hash: Hash): Option<nat> { Get(live, hash) }

  // The bytes of the torrents that have not been evicted.
  function Remaining(live: Live, evicted: seq<Hash>): nat {
    if live == [] then 0 else (if live[0].0 in evicted then 0 else live[0].1) + Remaining(live[1..], evicted)
  }

  lemma {:induction false} EvictingOne(live: Live, evicted: seq<Hash>, hash: Hash)
    requires Distinct(live) && hash !in evicted
    ensures Remaining(live, evicted) ==
      Remaining(live, evicted + [hash]) + if BytesOf(live, hash).Some? then BytesOf(live, hash).value else 0
  {
    if live != [] {
      EvictingOne(live[1..], evicted, hash);
    }
  }

  lemma {:induction false} NothingEvicted(live: Live)
    ensures Remaining(live, []) == Total(live)
  {
    if live != [] { NothingEvicted(live[1..]); }
  }

  function Total(live: Live): nat { if live == [] then 0 else live[0].1 + Total(live[1..]) }

  // [...live.values()].reduce((sum, t) => sum + t.bytes, 0)
  method Sum(live: Live) returns (total: nat)
    ensures total == Total(live)
  {
    total := 0;
    for i := 0 to |live|
      invariant total + Total(live[i..]) == Total(live)
    {
      assert live[i..][1..] == live[i + 1..];
      total := total + live[i].1;
    }
    assert live[|live|..] == [];
  }

  // ----- eviction -----------------------------------------------------------------------------------------

  datatype Candidate = Candidate(hash: Hash, expiresAt: int)

  predicate ByExpiry(cs: seq<Candidate>) { forall i, j | 0 <= i < j < |cs| :: cs[i].expiresAt <= cs[j].expiresAt }
  predicate DistinctHashes(cs: seq<Candidate>) { forall i, j | 0 <= i < j < |cs| :: cs[i].hash != cs[j].hash }

  // list().sort((a, b) => a.expiresAt - b.expiresAt), which keeps the order of equal expiries.
  function SortByExpiry(cs: seq<Candidate>): seq<Candidate> {
    if cs == [] then [] else Insert(cs[0], SortByExpiry(cs[1..]))
  }

  function Insert(c: Candidate, cs: seq<Candidate>): seq<Candidate> {
    if cs == [] || c.expiresAt <= cs[0].expiresAt then [c] + cs else [cs[0]] + Insert(c, cs[1..])
  }

  lemma {:induction false} InsertSorts(c: Candidate, cs: seq<Candidate>)
    requires ByExpiry(cs)
    ensures ByExpiry(Insert(c, cs)) && multiset(Insert(c, cs)) == multiset(cs) + multiset{c}
    ensures forall d <- Insert(c, cs) :: d == c || d in cs
  {
    if cs != [] && c.expiresAt > cs[0].expiresAt {
      InsertSorts(c, cs[1..]);
      assert cs == [cs[0]] + cs[1..];
      var rest := Insert(c, cs[1..]);
      forall d <- rest ensures cs[0].expiresAt <= d.expiresAt {
        if d != c { var i :| 0 <= i < |cs[1..]| && cs[1..][i] == d; assert cs[i + 1] == d; }
      }
    }
  }

  lemma SameMembers(a: seq<Candidate>, b: seq<Candidate>)
    requires multiset(a) == multiset(b)
    ensures forall c <- a :: c in b
  {
    forall c <- a ensures c in b { assert c in multiset(a); }
  }

  lemma {:induction false} SortSorts(cs: seq<Candidate>)
    requires DistinctHashes(cs)
    ensures var sorted := SortByExpiry(cs);
      ByExpiry(sorted) && multiset(sorted) == multiset(cs) && DistinctHashes(sorted)
  {
    if cs != [] {
      SortSorts(cs[1..]);
      InsertSorts(cs[0], SortByExpiry(cs[1..]));
      assert cs == [cs[0]] + cs[1..];
      SameMembers(SortByExpiry(cs[1..]), cs[1..]);
      InsertKeepsDistinct(cs[0], SortByExpiry(cs[1..]));
    }
  }

  lemma {:induction false} InsertKeepsDistinct(c: Candidate, cs: seq<Candidate>)
    requires DistinctHashes(cs) && forall d <- cs :: d.hash != c.hash
    ensures DistinctHashes(Insert(c, cs)) && forall d <- Insert(c, cs) :: d == c || d in cs
  {
    if cs != [] && c.expiresAt > cs[0].expiresAt {
      InsertKeepsDistinct(c, cs[1..]);
      var rest := Insert(c, cs[1..]);
      forall d <- rest ensures d.hash != cs[0].hash {
        if d != c { var i :| 0 <= i < |cs[1..]| && cs[1..][i] == d; assert cs[i + 1] == d; }
      }
    }
  }

  // Which candidates were evicted: an increasing list of positions.
  predicate Positions(at: seq<nat>, n: nat) {
    (forall k | 0 <= k < |at| :: at[k] < n) && forall j, k | 0 <= j < k < |at| :: at[j] < at[k]
  }

  function HashesAt(cs: seq<Candidate>, at: seq<nat>): (hashes: seq<Hash>)
    requires Positions(at, |cs|)
    ensures |hashes| == |at|
  {
    seq(|at|, k requires 0 <= k < |at| => cs[at[k]].hash)
  }

  lemma OneMorePosition(cs: seq<Candidate>, at: seq<nat>, i: nat)
    requires Positions(at, i) && i < |cs| && DistinctHashes(cs)
    ensures Positions(at + [i], i + 1) && Positions(at, |cs|) && Positions(at + [i], |cs|)
    ensures HashesAt(cs, at + [i]) == HashesAt(cs, at) + [cs[i].hash] && cs[i].hash !in HashesAt(cs, at)
  {
  }

  // What the deletion of a candidate comes back with.
  function ReplyTo(c: Candidate, standings: Hash -> Standing): Reply { Evict(c.expiresAt, standings(c.hash)) }

  // Each eviction is of a torrent seen alive whose deletion went through.
  predicate EvictionsOk(live: Live, cs: seq<Candidate>, standings: Hash -> Standing, at: seq<nat>)
    requires Positions(at, |cs|)
  {
    forall k | 0 <= k < |at| :: BytesOf(live, cs[at[k]].hash).Some? && ReplyTo(cs[at[k]], standings).Removed?
  }

  // The first n candidates have been tried: those alive and not evicted refused to go.
  predicate Tried(live: Live, cs: seq<Candidate>, standings: Hash -> Standing, evicted: seq<Hash>, n: nat)
    requires n <= |cs|
  {
    forall i | 0 <= i < n && BytesOf(live, cs[i].hash).Some? && cs[i].hash !in evicted ::
      !ReplyTo(cs[i], standings).Removed?
  }

  // Exactly those whose deletion threw are reported as failed.
  predicate FailuresOk(live: Live, cs: seq<Candidate>, standings: Hash -> Standing, failed: set<Hash>, n: nat)
    requires n <= |cs|
  {
    && (forall h <- failed :: exists i :: 0 <= i < n && cs[i].hash == h && ReplyTo(cs[i], standings).Threw?)
    && (forall i | 0 <= i < n && BytesOf(live, cs[i].hash).Some? && ReplyTo(cs[i], standings).Threw? ::
      cs[i].hash in failed)
  }

  // Before the last eviction the total was still over the cap.
  predicate WasNeeded(live: Live, evicted: seq<Hash>, total: int, cap: int) {
    evicted == [] || (BytesOf(live, evicted[|evicted| - 1]).Some?
      && total + BytesOf(live, evicted[|evicted| - 1]).value > cap)
  }

  lemma EvictsOneMore(live: Live, cs: seq<Candidate>, standings: Hash -> Standing, at: seq<nat>, i: nat)
    requires i < |cs| && Positions(at, i) && Positions(at, |cs|) && DistinctHashes(cs)
    requires EvictionsOk(live, cs, standings, at) && Tried(live, cs, standings, HashesAt(cs, at), i)
    requires BytesOf(live, cs[i].hash).Some? && ReplyTo(cs[i], standings).Removed?
    ensures Positions(at + [i], i + 1) && Positions(at + [i], |cs|)
    ensures EvictionsOk(live, cs, standings, at + [i]) && Tried(live, cs, standings, HashesAt(cs, at + [i]), i + 1)
    ensures HashesAt(cs, at + [i]) == HashesAt(cs, at) + [cs[i].hash] && cs[i].hash !in HashesAt(cs, at)
  {
    OneMorePosition(cs, at, i);
    forall h <- HashesAt(cs, at) ensures h in HashesAt(cs, at + [i]) {}
  }

  // The size-cap pass over the listed records; `standings` is what each deletion finds when it runs.
  method EvictOverCap(live: Live, listed: seq<Candidate>, cap: int, standings: Hash -> Standing)
    returns (candidates: seq<Candidate>, evicted: seq<Hash>, failed: set<Hash>, total: int, ghost at: seq<nat>,
      ghost tried: nat)
    requires Distinct(live) && DistinctHashes(listed)
    // Every listed record is a candidate, earliest expiry first.
    ensures multiset(candidates) == multiset(listed) && ByExpiry(candidates) && DistinctHashes(candidates)
    ensures tried <= |candidates| && Positions(at, tried) && Positions(at, |candidates|)
      && evicted == HashesAt(candidates, at)
    // The total is the bytes of what is alive and not evicted.
    ensures total == Remaining(live, evicted)
    // Earlier expiries go first, and only torrents seen alive whose deletion went through.
    ensures forall j, k | 0 <= j < k < |at| :: candidates[at[j]].expiresAt <= candidates[at[k]].expiresAt
    ensures EvictionsOk(live, candidates, standings, at)
    // No more than needed; and enough, unless every live candidate that is left refused to go.
    ensures WasNeeded(live, evicted, total, cap)
    ensures (total <= cap || tried == |candidates|) && Tried(live, candidates, standings, evicted, tried)
    ensures FailuresOk(live, candidates, standings, failed, tried)
  {
    candidates := SortByExpiry(listed);
    SortSorts(listed);
    evicted, failed, total, at, tried := EvictInOrder(live, candidates, cap, standings);
  }

  method EvictInOrder(live: Live, candidates: seq<Candidate>, cap: int, standings: Hash -> Standing)
    returns (evicted: seq<Hash>, failed: set<Hash>, total: int, ghost at: seq<nat>, ghost tried: nat)
    requires Distinct(live) && DistinctHashes(candidates)
    ensures tried <= |candidates| && Positions(at, tried) && Positions(at, |candidates|)
      && evicted == HashesAt(candidates, at)
    ensures total == Remaining(live, evicted) && WasNeeded(live, evicted, total, cap)
    ensures EvictionsOk(live, candidates, standings, at)
    ensures (total <= cap || tried == |candidates|) && Tried(live, candidates, standings, evicted, tried)
    ensures FailuresOk(live, candidates, standings, failed, tried)
  {
    evicted, failed, at, tried := [], {}, [], 0;
    total := Sum(live);
    NothingEvicted(live);
    for i := 0 to |candidates|
      invariant tried == i && Positions(at, i) && Positions(at, |candidates|) && evicted == HashesAt(candidates, at)
      invariant total == Remaining(live, evicted) && WasNeeded(live, evicted, total, cap)
      invariant EvictionsOk(live, candidates, standings, at) && Tried(live, candidates, standings, evicted, i)
      invariant FailuresOk(live, candidates, standings, failed, i)
    {
      if total <= cap { return; }
      var c := candidates[i];
      var bytes := BytesOf(live, c.hash);
      tried := i + 1;
      if bytes.Some? {
        match ReplyTo(c, standings) {
          case Removed =>
            EvictsOneMore(live, candidates, standings, at, i);
            EvictingOne(live, evicted, c.hash);
            at := at + [i];
            evicted := evicted + [c.hash];
            total := total - bytes.value;
          case Spared =>
          case Threw => failed := failed + {c.hash};
        }
      }
    }
  }

  // ----- the first pass -----------------------------------------------------------------------------------

  // One listed record: its section may end without a proven torrent, or with one; the deletion that follows
  // a proof may remove it, spare it or fail, and so may the upkeep in front of it.
  datatype Visit = Unproven(failed: bool, stale: bool) | Proven(bytes: nat, reply: Reply)

  function StillAlive(v: Visit): Option<nat> { if v.Proven? && !v.reply.Removed? then Some(v.bytes) else None }

  predicate Fails(v: Visit) { match v case Unproven(failed, _) => failed case Proven(_, reply) => reply.Threw? }

  datatype Report = Report(live: Live, deleted: seq<Hash>, stale: seq<Hash>, failed: seq<Hash>)

  method FirstPass(hashes: seq<Hash>, visits: seq<Visit>) returns (r: Report)
    requires |visits| == |hashes| && forall i, j | 0 <= i < j < |hashes| :: hashes[i] != hashes[j]
    ensures Distinct(r.live)
    // Alive is what was proven and not removed, whether or not something failed on the way.
    ensures forall i | 0 <= i < |hashes| :: BytesOf(r.live, hashes[i]) == StillAlive(visits[i])
    ensures forall h | BytesOf(r.live, h).Some? :: h in hashes
    ensures forall i | 0 <= i < |hashes| :: (hashes[i] in r.deleted <==> visits[i].Proven? && visits[i].reply.Removed?)
    ensures forall i | 0 <= i < |hashes| :: (hashes[i] in r.failed <==> Fails(visits[i]))
    ensures forall i | 0 <= i < |hashes| :: (hashes[i] in r.stale <==> visits[i].Unproven? && visits[i].stale)
  {
    r := Report([], [], [], []);
    for i := 0 to |hashes|
      invariant Distinct(r.live)
      invariant forall h: Hash | BytesOf(r.live, h).Some? :: h in hashes[..i]
      invariant forall h | h in r.deleted || h in r.failed || h in r.stale :: h in hashes[..i]
      invariant forall j | 0 <= j < i :: BytesOf(r.live, hashes[j]) == StillAlive(visits[j])
      invariant forall j | 0 <= j < i :: (hashes[j] in r.deleted <==> visits[j].Proven? && visits[j].reply.Removed?)
      invariant forall j | 0 <= j < i :: (hashes[j] in r.failed <==> Fails(visits[j]))
      invariant forall j | 0 <= j < i :: (hashes[j] in r.stale <==> visits[j].Unproven? && visits[j].stale)
    {
      var hash := hashes[i];
      assert hashes[..i + 1] == hashes[..i] + [hash];
      match visits[i] {
        case Unproven(failed, stale) =>
          if stale { r := r.(stale := r.stale + [hash]); }
          if failed { r := r.(failed := r.failed + [hash]); }
        case Proven(bytes, reply) =>
          forall h: Hash
            ensures BytesOf(Set(r.live, hash, bytes), h) == if h == hash then Some(bytes) else BytesOf(r.live, h)
          {
            SetThenGet(r.live, hash, bytes, h);
          }
          SetKeepsDistinct(r.live, hash, bytes);
          r := r.(live := Set(r.live, hash, bytes));
          if reply.Removed? {
            forall h: Hash ensures BytesOf(Delete(r.live, hash), h) == if h == hash then None else BytesOf(r.live, h) {
              DeleteThenGet(r.live, hash, h);
            }
            DeleteKeepsDistinct(r.live, hash);
            r := r.(live := Delete(r.live, hash), deleted := r.deleted + [hash]);
          } else if reply.Threw? {
            r := r.(failed := r.failed + [hash]);
          }
      }
    }
    assert hashes[..|hashes|] == hashes;
  }
}
