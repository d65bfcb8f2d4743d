/**
 Partial playback: the gate that polls verified pieces, and the loop that reads and sends a range of
 a file that is still being downloaded.

 Time, aborts, the download client and the disk are given as a script of moments, one for every await.
 What the program does at a moment depends only on what it can observe there.
 */
module PartialPlayback {
  import opened Arithmetic
  import opened ByteRanges
  import opened Decimals
  import opened PieceLayout
  import opened Wrappers

  type Byte = bv8

  const CHUNK := 65536
  const REFRESH_MS := 500
  const VERIFIED := 2
  const DRAIN_MS := 120_000

  // What one probe of the client finds: the torrent gone, disowned or in an error state; a failed
  // request; a torrent being checked or moved; or the state of every piece.
  datatype Probe = Unavailable | Failed(retryable: bool) | Unsettled | States(states: seq<int>)

  // `verified` is the truth about the torrent, which the program never reads; `disk` is the file as
  // the disk shows it, holes included, `ready` how many bytes a read returns at most, and `flushed` whether
  // the connection has taken what was written.
  datatype Moment = Moment(
    aborted: bool, now: int, probe: Probe, after: int,
    verified: set<nat>, disk: seq<Byte>, ready: nat, flushed: bool)

  type Script = seq<Moment>

  predicate Reports(m: Moment) {
    m.probe.States? ==> forall p | 0 <= p < |m.probe.states| && m.probe.states[p] == VERIFIED :: p in m.verified
  }

  // The client never reports a piece it has not verified, and a verified piece stays verified.
  predicate Honest(script: Script) {
    && (forall i | 0 <= i < |script| :: Reports(script[i]))
    && (forall i, j | 0 <= i <= j < |script| :: script[i].verified <= script[j].verified)
  }

  // The bytes of a verified piece are on disk as they are in the finished file.
  predicate Stored(script: Script, l: Layout, offset: nat, content: seq<Byte>)
    requires Sized(l)
  {
    forall m, i | 0 <= m < |script| && 0 <= i < |script[m].disk| ::
      i < |content| && (PieceOf(l, offset, i) in script[m].verified ==> script[m].disk[i] == content[i])
  }

  predicate Ready(states: seq<int>, p: int) { 0 <= p < |states| && states[p] == 2 }

  // What was verified by the time the first `at` moments had passed.
  function Known(script: Script, at: nat): set<nat>
    requires at <= |script|
  {
    if at == 0 then {} else script[at - 1].verified
  }

  datatype Outcome = Done | Aborted | Buffering | Gone | Failure | Pending

  predicate Covered(script: Script, at: nat, l: Layout, start: nat, end: nat)
    requires at <= |script| && l.size > 0
  {
    var (low, high) := RequiredPieces(l, start, end);
    forall p | low <= p <= high :: p >= 0 && p in Known(script, at)
  }

  // However the file is laid out, the piece of each byte of the span had been verified.
  ghost predicate BytesKnown(script: Script, at: nat, l: Layout, start: nat, end: nat)
    requires at <= |script| && Sized(l)
  {
    forall offset: nat, i: nat | Consistent(l, offset) && start <= i <= end ::
      PieceOf(l, offset, i) in Known(script, at)
  }

  lemma CoveredBytesAreKnown(script: Script, at: nat, l: Layout, start: nat, end: nat)
    requires at <= |script| && Sized(l) && start <= end < l.bytes && Covered(script, at, l, start, end)
    ensures BytesKnown(script, at, l, start, end)
  {
    forall offset: nat, i: nat | Consistent(l, offset) && start <= i <= end
      ensures PieceOf(l, offset, i) in Known(script, at)
    {
      RequiredPiecesCover(l, start, end, offset, i);
    }
  }

  // What the gate remembers: the states of the last probe and when it came back.
  datatype Cache = Cache(states: seq<int>, refreshed: int)

  predicate AllReady(states: seq<int>, first: int, last: int) {
    forall p | first <= p <= last :: Ready(states, p)
  }

  // One turn of the gate's loop, as a relation. An abort is noticed first. The client is only asked with an
  // empty cache or half a second after its last answer, and what it says about too few pieces is worth nothing.
  // Pieces that are all verified open the gate even at the deadline, which ends the wait otherwise; `Pending`
  // is a turn that waits on.
  predicate TurnIs(before: Cache, m: Moment, after: Cache, l: Layout, first: int, last: int, deadline: int,
                   outcome: Outcome)
  {
    var asked := !m.aborted && (before.states == [] || m.now - before.refreshed >= 500);
    var ended := outcome.Aborted? || outcome.Gone? || outcome.Failure?;
    var ready := AllReady(after.states, first, last);
    && (outcome.Aborted? <==> m.aborted)
    && (outcome.Gone? <==> asked && m.probe == Unavailable)
    && (outcome.Failure? <==> asked && m.probe == Failed(false))
    && (ended || !asked ==> after == before)
    && (asked && !ended ==> after.refreshed == m.after)
    && (asked && m.probe.States? && l.last < |m.probe.states| ==> after.states == m.probe.states)
    && (asked && !ended && !(m.probe.States? && l.last < |m.probe.states|) ==> after.states == [])
    && (outcome.Done? <==> !ended && ready)
    && (outcome.Buffering? <==> !ended && !ready && m.after >= deadline)
  }

  // Nothing is ever in the way: the client reports every piece, the disk shows the finished file, a read
  // fills a whole chunk and the connection takes what it is given.
  predicate Flawless(script: Script, l: Layout, content: seq<Byte>) {
    forall i | 0 <= i < |script| ::
      var m := script[i];
      && !m.aborted && m.flushed && m.disk == content && m.ready >= 65536
      && m.probe.States? && l.last < |m.probe.states| && AllReady(m.probe.states, 0, l.last)
  }

  predicate Fine(cache: Cache, l: Layout) { cache.states == [] || AllReady(cache.states, 0, l.last) }

  // The turns since the moment `at0`, each from what the one before it left in the cache, all but the last
  // of them waiting on.
  predicate TurnsAre(script: Script, at0: nat, caches: seq<Cache>, l: Layout, span: (int, int), deadline: int,
                     outcome: Outcome)
  {
    && 0 < |caches| && at0 + |caches| - 1 <= |script|
    && forall k | 0 < k < |caches| ::
         TurnIs(caches[k - 1], script[at0 + k - 1], caches[k], l, span.0, span.1, deadline,
                if k == |caches| - 1 then outcome else Pending)
  }

  lemma OneMoreTurn(script: Script, at0: nat, caches: seq<Cache>, after: Cache, l: Layout, span: (int, int),
                    deadline: int, outcome: Outcome)
    requires TurnsAre(script, at0, caches, l, span, deadline, Pending) && at0 + |caches| <= |script|
    requires TurnIs(caches[|caches| - 1], script[at0 + |caches| - 1], after, l, span.0, span.1, deadline, outcome)
    ensures TurnsAre(script, at0, caches + [after], l, span, deadline, outcome)
  {
  }

  // Why the last turn did not wait on.
  lemma LastTurn(script: Script, at0: nat, caches: seq<Cache>, l: Layout, span: (int, int), deadline: int,
                 outcome: Outcome)
    requires TurnsAre(script, at0, caches, l, span, deadline, outcome) && |caches| > 1
    ensures var m := script[at0 + |caches| - 2];
      match outcome
      case Aborted => m.aborted
      case Gone => m.probe == Unavailable
      case Failure => m.probe == Failed(false)
      case Buffering => m.after >= deadline
      case _ => true
  {
    var k := |caches| - 1;
    assert TurnIs(caches[k - 1], script[at0 + k - 1], caches[k], l, span.0, span.1, deadline, outcome);
  }

  lemma FlawlessTurn(script: Script, at0: nat, caches: seq<Cache>, l: Layout, start: nat, end: nat, deadline: int,
                     outcome: Outcome, content: seq<Byte>)
    requires Flawless(script, l, content) && Sized(l) && Accepts(l) && start <= end < l.bytes
    requires TurnsAre(script, at0, caches, l, RequiredPieces(l, start, end), deadline, outcome) && |caches| > 1
    requires Fine(caches[0], l)
    ensures outcome == Done && |caches| == 2 && Fine(caches[1], l)
  {
    var (low, high) := RequiredPieces(l, start, end);
    RequiredPiecesAreExact(l, start, end);
    assert !script[at0].aborted;
    var first := if |caches| == 2 then outcome else Pending;
    assert TurnIs(caches[0], script[at0], caches[1], l, low, high, deadline, first);
    FirstIsDone(caches[0], script[at0], caches[1], l, low, high, deadline, first);
  }

  lemma FirstIsDone(before: Cache, m: Moment, after: Cache, l: Layout, first: int, last: int, deadline: int,
                    outcome: Outcome)
    requires TurnIs(before, m, after, l, first, last, deadline, outcome) && 0 <= first && last <= l.last
    requires !m.aborted && m.probe.States? && l.last < |m.probe.states| && AllReady(m.probe.states, 0, l.last)
    requires Fine(before, l)
    ensures outcome == Done && Fine(after, l)
  {
  }

  /** The closure returned by `pieceGate`, with the variables it captures. */
  class Gate {
    const layout: Layout
    const waitMs: int
    var states: seq<int>
    var refreshed: int

    constructor (layout: Layout, waitMs: int)
      ensures this.layout == layout && this.waitMs == waitMs && states == []
    {
      this.layout, this.waitMs := layout, waitMs;
      states, refreshed := [], 0;
    }

    // The cache only ever claims pieces that have been verified.
    ghost predicate Truthful(script: Script, at: nat)
      requires at <= |script|
      reads this
    {
      forall p | Ready(states, p) :: p in Known(script, at)
    }

    function Cached(): Cache
      reads this
    {
      Cache(states, refreshed)
    }

    // One refresh of the cache. Anything but `Done` is a thrown error that ends the playback.
    method Refresh(m: Moment) returns (outcome: Outcome)
      modifies this
      ensures outcome.Done? <==> !(m.probe.Unavailable? || (m.probe.Failed? && !m.probe.retryable))
      ensures outcome.Done? ==>
        && refreshed == m.after
        && states == if m.probe.States? && layout.last < |m.probe.states| then m.probe.states else []
      ensures !outcome.Done? ==> Cached() == old(Cached())
      ensures outcome.Gone? <==> m.probe.Unavailable?
      ensures !outcome.Aborted? && !outcome.Pending? && !outcome.Buffering?
    {
      match m.probe {
        case Unavailable => return Gone;
        case Failed(retryable) =>
          if !retryable { return Failure; }
          states := [];
        case Unsettled => states := [];
        case States(found) =>
          states := found;
          if layout.last >= |states| { states := []; }
      }
      refreshed := m.after;
      outcome := Done;
    }

    method Scan(first: int, last: int) returns (ready: bool)
      requires 0 <= first
      ensures ready <==> AllReady(states, first, last)
    {
      var i := first;
      while i <= last
        invariant AllReady(states, first, i - 1)
      {
        if i >= |states| || states[i] != VERIFIED {
          assert !Ready(states, i);
          return false;
        }
        i := i + 1;
      }
      ready := true;
    }

    // Wait until every piece the span may lie in is verified: turn by turn, until one does not wait on.
    method Await(script: Script, at0: nat, start: nat, end: nat)
      returns (outcome: Outcome, at: nat, ghost caches: seq<Cache>)
      requires at0 <= |script| && Honest(script) && Truthful(script, at0)
      requires Sized(layout) && Accepts(layout) && start <= end < layout.bytes
      modifies this
      ensures at0 <= at <= |script| && Truthful(script, at)
      ensures outcome.Done? ==> at > at0 && Covered(script, at, layout, start, end) && !script[at - 1].aborted
      ensures outcome.Pending? ==> at == |script|
      ensures !outcome.Pending? ==> at > at0
      ensures |caches| == at - at0 + 1 && caches[0] == old(Cached()) && caches[at - at0] == Cached()
      ensures at > at0 ==>
        TurnsAre(script, at0, caches, layout, RequiredPieces(layout, start, end), script[at0].now + waitMs, outcome)
    {
      RequiredPiecesAreExact(layout, start, end);
      var (first, last) := RequiredPieces(layout, start, end);
      at, caches := at0, [Cached()];
      while at < |script|
        invariant at0 <= at <= |script| && Truthful(script, at)
        invariant |caches| == at - at0 + 1 && caches[0] == old(Cached()) && caches[at - at0] == Cached()
        invariant at0 < |script| ==>
          TurnsAre(script, at0, caches, layout, (first, last), script[at0].now + waitMs, Pending)
      {
        var m := script[at];
        KnownGrows(this, script, at, at + 1);
        outcome := Turn(script, at, first, last, script[at0].now + waitMs);
        OneMoreTurn(script, at0, caches, Cached(), layout, (first, last), script[at0].now + waitMs, outcome);
        at, caches := at + 1, caches + [Cached()];
        if !outcome.Pending? { return; }
      }
      outcome := Pending;
    }

    method Turn(script: Script, at: nat, first: int, last: int, deadline: int) returns (outcome: Outcome)
      requires 0 <= first && at < |script| && Reports(script[at]) && Truthful(script, at + 1)
      modifies this
      ensures TurnIs(old(Cached()), script[at], Cached(), layout, first, last, deadline, outcome)
      ensures Truthful(script, at + 1)
      ensures outcome.Done? ==> !script[at].aborted && forall p | first <= p <= last :: Ready(states, p)
    {
      var m := script[at];
      if m.aborted { return Aborted; }
      if |states| == 0 || m.now - refreshed >= REFRESH_MS {
        outcome := Refresh(m);
        if !outcome.Done? { return; }
      }
      var ready := Scan(first, last);
      if ready { return Done; }
      outcome := if m.after >= deadline then Buffering else Pending;
    }
  }

  // A gate is handed out exactly when the reported pieces can hold the file at all.
  method OpenGate(pieceRange: Option<(nat, nat)>, pieceSize: int, bytes: int, waitMs: int) returns (gate: Gate?)
    requires pieceSize > 0 && bytes > 0
    ensures gate != null <==>
      && pieceRange.Some?
      && exists offset: nat :: Consistent(Layout(pieceRange.value.0, pieceRange.value.1, pieceSize, bytes), offset)
    ensures gate != null ==>
      && fresh(gate) && gate.layout == Layout(pieceRange.value.0, pieceRange.value.1, pieceSize, bytes)
      && gate.waitMs == waitMs && forall script: Script :: gate.Truthful(script, 0)
  {
    if pieceRange.None? { return null; }
    var layout := Layout(pieceRange.value.0, pieceRange.value.1, pieceSize, bytes);
    AcceptedIffConsistent(layout);
    if !Accepts(layout) { return null; }
    gate := new Gate(layout, waitMs);
  }

  // One read of the file: where, how many bytes, and at which moment.
  datatype Read = Read(position: nat, count: nat, moment: nat)

  predicate Sent(body: seq<Byte>, content: seq<Byte>, start: nat) {
    start + |body| <= |content| && body == content[start..start + |body|]
  }

  // Every byte ever read was, for every possible layout of the file, in a piece verified by then.
  ghost predicate GatedReads(script: Script, l: Layout, reads_: seq<Read>)
    requires Sized(l)
  {
    if reads_ == [] then true else
    var r := reads_[|reads_| - 1];
    && GatedReads(script, l, reads_[..|reads_| - 1])
    && (r.count > 0 ==>
          r.moment < |script| && BytesKnown(script, r.moment + 1, l, r.position, r.position + r.count - 1))
  }

  lemma {:induction false} GatedBoth(script: Script, l: Layout, reads_: seq<Read>, more: seq<Read>)
    requires Sized(l) && GatedReads(script, l, reads_) && GatedReads(script, l, more)
    ensures GatedReads(script, l, reads_ + more)
  {
    if more == [] {
      assert reads_ + more == reads_;
    } else {
      var n := |more| - 1;
      GatedBoth(script, l, reads_, more[..n]);
      assert (reads_ + more)[..|reads_| + n] == reads_ + more[..n];
    }
  }

  lemma KnownLater(script: Script, at: nat, later: nat, l: Layout, start: nat, end: nat, from: nat, to: nat)
    requires Honest(script) && at <= later <= |script| && Sized(l) && start <= from && to <= end
    requires BytesKnown(script, at, l, start, end)
    ensures BytesKnown(script, later, l, from, to)
  {
    assert Known(script, at) <= Known(script, later);
  }

  lemma ReadIsGated(script: Script, at0: nat, l: Layout, start: nat, end: nat, reads_: seq<Read>, r: Read)
    requires Honest(script) && at0 <= r.moment < |script| && Sized(l)
    requires BytesKnown(script, at0, l, start, end) && start <= r.position && r.position + r.count - 1 <= end
    requires GatedReads(script, l, reads_)
    ensures GatedReads(script, l, reads_ + [r])
  {
    assert (reads_ + [r])[..|reads_|] == reads_;
    if r.count > 0 {
      KnownLater(script, at0, r.moment + 1, l, start, end, r.position, r.position + r.count - 1);
    }
  }

  // How many bytes a read of at most `length` bytes at `position` returns.
  function Got(m: Moment, position: nat, length: nat): nat {
    if position >= |m.disk| then 0 else Min(Min(m.ready, length), |m.disk| - position)
  }

  // What such a read returns.
  function Fetched(m: Moment, position: nat, length: nat): (bytes: seq<Byte>)
    ensures |bytes| == Got(m, position, length)
  {
    if position >= |m.disk| then [] else m.disk[position..position + Got(m, position, length)]
  }

  lemma FetchedIsTrue(script: Script, at: nat, l: Layout, offset: nat, content: seq<Byte>,
                      from: nat, position: nat, end: nat)
    requires at < |script| && Honest(script) && Sized(l) && Consistent(l, offset)
    requires Stored(script, l, offset, content) && |content| == l.bytes && from <= position <= end < l.bytes
    requires BytesKnown(script, at, l, from, end)
    ensures var got := Got(script[at], position, end - position + 1);
      Fetched(script[at], position, end - position + 1) == content[position..position + got]
  {
    var m := script[at];
    var got := Got(m, position, end - position + 1);
    assert Known(script, at) <= m.verified;
    forall i | position <= i < position + got ensures m.disk[i] == content[i] {
      assert PieceOf(l, offset, i) in Known(script, at);
    }
  }

  // One read at the moment `at` into the rest of the buffer.
  method ReadOnce(script: Script, ghost at0: nat, at: nat, buffer: array<Byte>, position: nat, read: nat,
                  l: Layout, ghost offset: nat, ghost content: seq<Byte>)
    returns (upTo: nat)
    requires at0 <= at < |script| && Honest(script) && Sized(l) && Consistent(l, offset)
    requires Stored(script, l, offset, content) && |content| == l.bytes
    requires read < buffer.Length && position + buffer.Length <= l.bytes
    requires BytesKnown(script, at0, l, position, position + buffer.Length - 1)
    requires buffer[..read] == content[position..position + read]
    modifies buffer
    ensures upTo == read + Got(script[at], position + read, buffer.Length - read)
    ensures buffer[..upTo] == content[position..position + upTo]
  {
    var bytes := Fetched(script[at], position + read, buffer.Length - read);
    KnownLater(script, at0, at, l, position, position + buffer.Length - 1, position, position + buffer.Length - 1);
    FetchedIsTrue(script, at, l, offset, content, position, position + read, position + buffer.Length - 1);
    Place(buffer, read, bytes);
    upTo := read + |bytes|;
    assert buffer[..upTo] == buffer[..read] + bytes;
  }

  // How far the reads of one chunk have got.
  function ReadUpTo(reads_: seq<Read>, position: nat): nat {
    if reads_ == [] then position else reads_[|reads_| - 1].position + reads_[|reads_| - 1].count
  }

  // One read a moment, each for what is still missing, each beginning where the one before it ended and
  // only while the deadline had not passed.
  predicate ReadsFollow(script: Script, reads_: seq<Read>, at0: nat, position: nat, length: nat, deadline: int) {
    if reads_ == [] then true else
    var n := |reads_| - 1;
    var (r, front) := (reads_[n], reads_[..n]);
    && ReadsFollow(script, front, at0, position, length, deadline)
    && r.moment == at0 + n < |script| && !script[r.moment].aborted && (n > 0 ==> script[r.moment - 1].after < deadline)
    && r.position == ReadUpTo(front, position) < position + length
    && r.count == Got(script[r.moment], r.position, position + length - r.position)
  }

  lemma OneMoreRead(script: Script, reads_: seq<Read>, r: Read, at0: nat, position: nat, length: nat, deadline: int)
    requires ReadsFollow(script, reads_, at0, position, length, deadline)
    requires r.moment == at0 + |reads_| < |script| && !script[r.moment].aborted
    requires reads_ != [] ==> script[r.moment - 1].after < deadline
    requires r.position == ReadUpTo(reads_, position) < position + length
    requires r.count == Got(script[r.moment], r.position, position + length - r.position)
    ensures ReadsFollow(script, reads_ + [r], at0, position, length, deadline)
    ensures ReadUpTo(reads_ + [r], position) == r.position + r.count
  {
    assert (reads_ + [r])[..|reads_|] == reads_;
  }

  // One read is enough where nothing is in the way.
  lemma {:induction false} FlawlessReads(script: Script, reads_: seq<Read>, at0: nat, position: nat, length: nat,
                                         deadline: int, l: Layout, content: seq<Byte>)
    requires Flawless(script, l, content) && 0 < length <= 65536 && position + length <= |content|
    requires ReadsFollow(script, reads_, at0, position, length, deadline)
    ensures reads_ == [] || (|reads_| == 1 && ReadUpTo(reads_, position) == position + length)
  {
    if reads_ != [] {
      FlawlessReads(script, reads_[..|reads_| - 1], at0, position, length, deadline, l, content);
    }
  }

  // Fill the buffer for one chunk, however short the reads; only after the gate has opened.
  method ReadChunk(script: Script, at0: nat, buffer: array<Byte>, position: nat, waitMs: int,
                   l: Layout, ghost offset: nat, ghost content: seq<Byte>)
    returns (outcome: Outcome, at: nat, ghost reads_: seq<Read>)
    requires at0 <= |script| && Honest(script) && Sized(l) && Consistent(l, offset)
    requires Stored(script, l, offset, content) && |content| == l.bytes
    requires 0 < buffer.Length && position + buffer.Length <= l.bytes
    requires BytesKnown(script, at0, l, position, position + buffer.Length - 1)
    modifies buffer
    ensures at0 <= at <= |script| && !outcome.Gone? && !outcome.Failure?
    ensures outcome.Done? ==> buffer[..] == content[position..position + buffer.Length]
    ensures outcome.Done? <==> ReadUpTo(reads_, position) == position + buffer.Length
    ensures GatedReads(script, l, reads_)
    ensures |reads_| == at - at0
    ensures at > at0 ==> ReadsFollow(script, reads_, at0, position, buffer.Length, script[at0].now + waitMs)
    ensures outcome.Pending? ==> at == |script|
    ensures outcome.Aborted? ==> at < |script| && script[at].aborted
    ensures outcome.Buffering? ==> at > at0 && script[at - 1].after >= script[at0].now + waitMs
    ensures at > at0 && (outcome.Aborted? || outcome.Pending?) ==> script[at - 1].after < script[at0].now + waitMs
  {
    var read := 0;
    at, reads_ := at0, [];
    while read < buffer.Length
      invariant 0 <= read <= buffer.Length && at0 <= at <= |script|
      invariant buffer[..read] == content[position..position + read]
      invariant GatedReads(script, l, reads_)
      invariant |reads_| == at - at0
      invariant at0 < |script| ==>
        ReadsFollow(script, reads_, at0, position, buffer.Length, script[at0].now + waitMs)
      invariant ReadUpTo(reads_, position) == position + read
      invariant at > at0 && read < buffer.Length ==> script[at - 1].after < script[at0].now + waitMs
      decreases |script| - at
    {
      if at == |script| { return Pending, at, reads_; }
      var m := script[at];
      if m.aborted { return Aborted, at, reads_; }
      read, reads_ := ReadMore(script, at0, at, buffer, position, read, script[at0].now + waitMs, l, offset, content,
                               reads_);
      at := at + 1;
      if read < buffer.Length && m.after >= script[at0].now + waitMs { return Buffering, at, reads_; }
    }
    outcome := Done;
    assert buffer[..] == buffer[..read];
  }

  // The read of one moment, with what it adds to the account of the reads.
  method ReadMore(script: Script, ghost at0: nat, at: nat, buffer: array<Byte>, position: nat, read: nat,
                  ghost deadline: int, l: Layout, ghost offset: nat, ghost content: seq<Byte>, ghost before: seq<Read>)
    returns (upTo: nat, ghost reads_: seq<Read>)
    requires at0 <= at < |script| && Honest(script) && Sized(l) && Consistent(l, offset)
    requires Stored(script, l, offset, content) && |content| == l.bytes
    requires read < buffer.Length && position + buffer.Length <= l.bytes
    requires BytesKnown(script, at0, l, position, position + buffer.Length - 1)
    requires buffer[..read] == content[position..position + read] && !script[at].aborted
    requires GatedReads(script, l, before) && ReadsFollow(script, before, at0, position, buffer.Length, deadline)
    requires |before| == at - at0 && (at > at0 ==> script[at - 1].after < deadline)
    requires ReadUpTo(before, position) == position + read
    modifies buffer
    ensures upTo <= buffer.Length && buffer[..upTo] == content[position..position + upTo]
    ensures GatedReads(script, l, reads_) && ReadsFollow(script, reads_, at0, position, buffer.Length, deadline)
    ensures |reads_| == |before| + 1 && ReadUpTo(reads_, position) == position + upTo
  {
    ghost var got := Read(position + read, Got(script[at], position + read, buffer.Length - read), at);
    ReadIsGated(script, at0, l, position, position + buffer.Length - 1, before, got);
    OneMoreRead(script, before, got, at0, position, buffer.Length, deadline);
    reads_ := before + [got];
    upTo := ReadOnce(script, at0, at, buffer, position, read, l, offset, content);
  }

  method Place(buffer: array<Byte>, from: nat, bytes: seq<Byte>)
    requires from + |bytes| <= buffer.Length
    modifies buffer
    ensures buffer[..from] == old(buffer[..from]) && buffer[from..from + |bytes|] == bytes
  {
    for i := 0 to |bytes|
      invariant buffer[..from] == old(buffer[..from])
      invariant buffer[from..from + i] == bytes[..i]
    {
      buffer[from + i] := bytes[i];
    }
  }

  predicate StillWaiting(script: Script, at0: nat, at: int, limitMs: Option<int>)
    requires at <= |script|
  {
    forall i | at0 <= i < at :: !script[i].aborted && !script[i].flushed
                                && (limitMs.Some? ==> script[i].now < script[at0].now + limitMs.value)
  }

  // Wait for the connection to take what was written: within a time limit for a full buffer, without one for
  // the end of the response.
  method AwaitFlush(script: Script, at0: nat, limitMs: Option<int>) returns (outcome: Outcome, at: nat)
    requires at0 <= |script|
    ensures at0 <= at <= |script| && outcome in {Done, Aborted, Failure, Pending}
    ensures outcome.Pending? ==> at == |script|
    ensures !outcome.Pending? ==> at > at0
    ensures outcome.Aborted? <==> at > at0 && script[at - 1].aborted
    ensures outcome.Done? <==> at > at0 && !script[at - 1].aborted && script[at - 1].flushed
    ensures outcome.Failure? ==> limitMs.Some? && script[at - 1].now >= script[at0].now + limitMs.value
    ensures StillWaiting(script, at0, if outcome.Pending? then at else at - 1, limitMs)
    ensures at0 < |script| && !script[at0].aborted && script[at0].flushed ==> outcome.Done? && at == at0 + 1
  {
    at := at0;
    while at < |script|
      invariant at0 <= at <= |script| && StillWaiting(script, at0, at, limitMs)
    {
      var m := script[at];
      at := at + 1;
      if m.aborted { return Aborted, at; }
      if m.flushed { return Done, at; }
      if limitMs.Some? && m.now >= script[at0].now + limitMs.value { return Failure, at; }
    }
    outcome := Pending;
  }

  // The connection took a chunk at the moment before `to`, having been waited for since `from`: two minutes at most.
  predicate Drained(script: Script, from: nat, to: nat) {
    && from < to <= |script| && script[to - 1].flushed
    && (forall i | from <= i < to :: !script[i].aborted)
    && (forall i | from <= i < to - 1 :: !script[i].flushed && script[i].now < script[from].now + 120_000)
  }

  // One such wait behind every chunk, one after the other.
  predicate Paced(script: Script, waits: seq<(nat, nat)>, at: nat) {
    && (forall k | 0 <= k < |waits| :: Drained(script, waits[k].0, waits[k].1) && waits[k].1 <= at)
    && (forall k | 0 < k < |waits| :: waits[k - 1].1 <= waits[k].0)
  }

  predicate TimedOut(script: Script, at: nat)
    requires at < |script|
  {
    !script[at].flushed && exists i | 0 <= i <= at :: script[at].now >= script[i].now + 120_000
  }

  // What a thrown error is about.
  predicate Justified(script: Script, at: nat, outcome: Outcome, waitMs: int) {
    match outcome
    case Done => true
    case Pending => at == |script|
    case Aborted => exists i | at - 1 <= i <= at :: 0 <= i < |script| && script[i].aborted
    case Gone => 0 < at <= |script| && script[at - 1].probe == Unavailable
    case Buffering => 0 < at <= |script| && exists i | 0 <= i < at :: script[at - 1].after >= script[i].now + waitMs
    case Failure =>
      0 < at <= |script| && (script[at - 1].probe == Failed(false) || TimedOut(script, at - 1))
  }

  lemma JustifiedEarlier(script: Script, at: nat, outcome: Outcome, waitMs: int, less: int)
    requires Justified(script, at, outcome, waitMs) && less <= waitMs
    ensures Justified(script, at, outcome, less)
  {
    if outcome.Buffering? {
      var i :| 0 <= i < at && script[at - 1].after >= script[i].now + waitMs;
      assert script[at - 1].after >= script[i].now + less;
    }
  }

  lemma HowReadingEnds(script: Script, at0: nat, at: nat, outcome: Outcome, reads_: seq<Read>, position: nat,
                       length: nat, waitMs: int, less: int, l: Layout, content: seq<Byte>)
    requires at0 <= at <= |script| && !outcome.Gone? && !outcome.Failure? && less <= waitMs
    requires outcome.Done? <==> ReadUpTo(reads_, position) == position + length
    requires outcome.Pending? ==> at == |script|
    requires outcome.Aborted? ==> at < |script| && script[at].aborted
    requires outcome.Buffering? ==> at > at0 && script[at - 1].after >= script[at0].now + waitMs
    requires |reads_| == at - at0 && 0 < length && position + length <= |content|
    requires at > at0 ==> ReadsFollow(script, reads_, at0, position, length, script[at0].now + waitMs)
    ensures Justified(script, at, outcome, less)
    ensures Flawless(script, l, content) && length <= 65536 && at0 < |script| ==> outcome.Done? && at == at0 + 1
  {
    if Flawless(script, l, content) && length <= 65536 && at > at0 {
      FlawlessReads(script, reads_, at0, position, length, script[at0].now + waitMs, l, content);
    }
  }

  lemma OneMoreWait(script: Script, waits: seq<(nat, nat)>, from: nat, to: nat, before: nat)
    requires Paced(script, waits, before) && before <= from < to <= |script|
    requires script[to - 1].flushed && !script[to - 1].aborted && StillWaiting(script, from, to - 1, Some(120_000))
    ensures Paced(script, waits + [(from, to)], to)
  {
    var more := waits + [(from, to)];
    forall k | 0 <= k < |more| ensures Drained(script, more[k].0, more[k].1) && more[k].1 <= to {
      if k < |waits| { assert more[k] == waits[k]; }
    }
  }

  // How many chunks it takes to send so many bytes.
  function Chunks(bytes: nat): (n: nat)
    ensures 65536 * (n - 1) < bytes <= 65536 * n || bytes == n == 0
  {
    (bytes + 65535) / 65536
  }

  lemma ChunksGrow(bytes: nat, more: nat)
    requires bytes <= more
    ensures Chunks(bytes) <= Chunks(more)
  {
  }

  // The gated loop: what has been written is always a prefix of the requested bytes of the finished file,
  // whatever holes the disk shows, made of whole chunks, and the whole of them when the loop ends normally.
  // No chunk is written before the connection has taken the one before it.
  method SendGated(gate: Gate, script: Script, start: nat, end: int, waitMs: int,
                   ghost offset: nat, ghost content: seq<Byte>)
    returns (outcome: Outcome, at: nat, body: seq<Byte>, ghost reads_: seq<Read>, ghost waits: seq<(nat, nat)>)
    requires Honest(script) && Sized(gate.layout) && Accepts(gate.layout) && Consistent(gate.layout, offset)
    requires Stored(script, gate.layout, offset, content) && |content| == gate.layout.bytes
    requires start <= end + 1 <= gate.layout.bytes && gate.Truthful(script, 0)
    modifies gate
    ensures at <= |script| && Sent(body, content, start) && start + |body| <= end + 1
    ensures outcome.Done? ==> start + |body| == end + 1
    ensures |body| % 65536 == 0 || start + |body| == end + 1
    ensures outcome.Buffering? || outcome.Gone? ==> start + |body| <= end
    ensures GatedReads(script, gate.layout, reads_)
    ensures Paced(script, waits, at)
    ensures |body| <= 65536 * |waits| + if outcome.Done? then 0 else 65536
    ensures Justified(script, at, outcome, Min(waitMs, gate.waitMs))
    ensures Flawless(script, gate.layout, content) && Fine(old(gate.Cached()), gate.layout) ==>
      |script| >= 3 * Chunks(end + 1 - start) ==> outcome.Done? && at <= 3 * Chunks(end + 1 - start)
  {
    ghost var chunks := Chunks(end + 1 - start);
    ghost var smooth := Flawless(script, gate.layout, content) && Fine(gate.Cached(), gate.layout)
      && |script| >= 3 * chunks;
    at := 0;
    var position := start;
    body, reads_, waits := [], [], [];
    while position <= end
      invariant start <= position <= end + 1 && at <= |script| && position == start + |body|
      invariant |body| == Min(65536 * |waits|, end + 1 - start)
      invariant |body| % 65536 == 0 || start + |body| == end + 1
      invariant |waits| <= chunks && (position <= end ==> |waits| < chunks)
      invariant Sent(body, content, start)
      invariant gate.Truthful(script, at) && GatedReads(script, gate.layout, reads_) && Paced(script, waits, at)
      invariant smooth ==> Fine(gate.Cached(), gate.layout) && at == 3 * |waits|
      decreases end + 1 - position
    {
      var length := Min(CHUNK, end - position + 1);
      var bytes: seq<Byte>;
      outcome, at, bytes, reads_ := SendChunk(gate, script, at, position, length, waitMs, offset, content, reads_);
      if !outcome.Done? { return; }
      OneMoreChunk(body, bytes, content, start, end, |waits|);
      body := body + bytes;
      position := position + length;
      assert smooth ==> at < |script| && !script[at].aborted && script[at].flushed;
      outcome, at, waits := AwaitDrain(gate, script, at, waits);
      if !outcome.Done? { return; }
    }
    outcome := Done;
  }

  // Wait for the connection to take a chunk.
  method AwaitDrain(gate: Gate, script: Script, at0: nat, ghost before: seq<(nat, nat)>)
    returns (outcome: Outcome, at: nat, ghost waits: seq<(nat, nat)>)
    requires at0 <= |script| && Honest(script) && gate.Truthful(script, at0) && Paced(script, before, at0)
    ensures at0 <= at <= |script| && gate.Truthful(script, at) && Paced(script, waits, at)
    ensures outcome in {Done, Aborted, Failure, Pending} && |waits| == if outcome.Done? then |before| + 1 else |before|
    ensures forall waitMs :: Justified(script, at, outcome, waitMs)
    ensures at0 < |script| && !script[at0].aborted && script[at0].flushed ==> outcome.Done? && at == at0 + 1
  {
    waits := before;
    outcome, at := AwaitFlush(script, at0, Some(DRAIN_MS));
    KnownGrows(gate, script, at0, at);
    if outcome.Done? {
      OneMoreWait(script, before, at0, at, at0);
      waits := waits + [(at0, at)];
    }
  }

  // Every chunk but the last is whole.
  lemma OneMoreChunk(body: seq<Byte>, bytes: seq<Byte>, content: seq<Byte>, start: nat, end: int, chunks: nat)
    requires Sent(body, content, start) && start + |body| <= end < |content| && |body| == 65536 * chunks
    requires bytes == content[start + |body|..start + |body| + Min(65536, end - (start + |body|) + 1)]
    ensures Sent(body + bytes, content, start) && |body + bytes| == Min(65536 * (chunks + 1), end + 1 - start)
    ensures |body + bytes| % 65536 == 0 || start + |body + bytes| == end + 1
  {
  }

  lemma KnownGrows(gate: Gate, script: Script, at: nat, later: nat)
    requires at <= later <= |script| && Honest(script) && gate.Truthful(script, at)
    ensures gate.Truthful(script, later)
  {
    assert Known(script, at) <= Known(script, later);
  }

  // One turn of the loop: gate the chunk, read it whole, hand it over.
  method SendChunk(gate: Gate, script: Script, at0: nat, position: nat, length: nat, waitMs: int,
                   ghost offset: nat, ghost content: seq<Byte>, ghost before: seq<Read>)
    returns (outcome: Outcome, at: nat, bytes: seq<Byte>, ghost reads_: seq<Read>)
    requires at0 <= |script| && Honest(script) && gate.Truthful(script, at0)
    requires Sized(gate.layout) && Accepts(gate.layout) && Consistent(gate.layout, offset)
    requires Stored(script, gate.layout, offset, content) && |content| == gate.layout.bytes
    requires 0 < length && position + length <= gate.layout.bytes && GatedReads(script, gate.layout, before)
    modifies gate
    ensures at0 <= at <= |script| && gate.Truthful(script, at) && GatedReads(script, gate.layout, reads_)
    ensures outcome.Done? ==> bytes == content[position..position + length]
    ensures at0 < |script| && script[at0].aborted ==> outcome.Aborted? && at == at0
    ensures Justified(script, at, outcome, Min(waitMs, gate.waitMs))
    ensures outcome.Failure? ==> at > 0 && script[at - 1].probe == Failed(false)
    ensures Flawless(script, gate.layout, content) && Fine(old(gate.Cached()), gate.layout) ==>
      length <= 65536 && at0 + 2 <= |script| ==>
        outcome.Done? && at == at0 + 2 && Fine(gate.Cached(), gate.layout)
  {
    at, bytes, reads_ := at0, [], before;
    if at < |script| && script[at].aborted { return Aborted, at, bytes, reads_; }
    outcome, at := AwaitBytes(gate, script, at, position, length, content);
    JustifiedEarlier(script, at, outcome, gate.waitMs, Min(waitMs, gate.waitMs));
    if !outcome.Done? { return; }
    var buffer := new Byte[length];
    ghost var from, more := at, [];
    outcome, at, more := ReadChunk(script, at, buffer, position, waitMs, gate.layout, offset, content);
    HowReadingEnds(script, from, at, outcome, more, position, length, waitMs, Min(waitMs, gate.waitMs), gate.layout,
                   content);
    KnownGrows(gate, script, from, at);
    GatedBoth(script, gate.layout, reads_, more);
    reads_ := reads_ + more;
    if outcome.Done? { bytes := buffer[..]; }
  }

  // The gate opens, and then every byte of the chunk has been verified.
  method AwaitBytes(gate: Gate, script: Script, at0: nat, position: nat, length: nat, ghost content: seq<Byte>)
    returns (outcome: Outcome, at: nat)
    requires at0 <= |script| && Honest(script) && gate.Truthful(script, at0)
    requires Sized(gate.layout) && Accepts(gate.layout) && 0 < length && position + length <= gate.layout.bytes
    modifies gate
    ensures at0 <= at <= |script| && gate.Truthful(script, at) && Justified(script, at, outcome, gate.waitMs)
    ensures outcome.Failure? ==> script[at - 1].probe == Failed(false)
    ensures outcome.Done? ==> BytesKnown(script, at, gate.layout, position, position + length - 1)
    ensures Flawless(script, gate.layout, content) && Fine(old(gate.Cached()), gate.layout) && at0 < |script| ==>
      outcome.Done? && at == at0 + 1 && Fine(gate.Cached(), gate.layout)
  {
    ghost var caches;
    outcome, at, caches := gate.Await(script, at0, position, position + length - 1);
    ghost var span := RequiredPieces(gate.layout, position, position + length - 1);
    if at > at0 {
      LastTurn(script, at0, caches, gate.layout, span, script[at0].now + gate.waitMs, outcome);
      if Flawless(script, gate.layout, content) && Fine(caches[0], gate.layout) {
        FlawlessTurn(script, at0, caches, gate.layout, position, position + length - 1,
                     script[at0].now + gate.waitMs, outcome, content);
      }
    }
    if outcome.Done? { CoveredBytesAreKnown(script, at, gate.layout, position, position + length - 1); }
  }

  datatype Head = Head(status: nat, contentLength: nat, contentRange: Option<(nat, nat)>)

  // The status line and headers: 416 for a range that selects nothing, 206 for one that does.
  function HeadFor(range: Parsed, size: nat): Head {
    match range
    case Absent => Head(200, size, None)
    case Unsatisfiable => Head(416, 0, None)
    case Bytes(start, end) => Head(206, if start <= end then end - start + 1 else 0, Some((start, end)))
  }

  // A whole partial response: when it ends normally its body is exactly the selected bytes of the finished
  // file and as long as its Content-Length, and the connection has taken all of it; cut short, it is a prefix of
  // them, and a proper one unless only the connection was in the way. With nothing in the way it is never cut short.
  method ServeFile(gate: Gate, script: Script, isHead: bool, header: Option<string>, waitMs: int,
                   ghost offset: nat, ghost content: seq<Byte>)
    returns (outcome: Outcome, head: Head, body: seq<Byte>, at: nat, ghost reads_: seq<Read>,
             ghost waits: seq<(nat, nat)>)
    requires Honest(script) && Sized(gate.layout) && Accepts(gate.layout) && Consistent(gate.layout, offset)
    requires Stored(script, gate.layout, offset, content) && |content| == gate.layout.bytes <= MAX_SAFE_INTEGER
    requires gate.Truthful(script, 0)
    modifies gate
    ensures match ParseRange(header, |content|)
      case Absent => head == Head(200, |content|, None)
      case Unsatisfiable => head == Head(416, 0, None)
      case Bytes(start, end) => start <= end && head == Head(206, end - start + 1, Some((start, end)))
    ensures GatedReads(script, gate.layout, reads_) && Paced(script, waits, at)
    ensures head.status == 416 || isHead ==> outcome.Done? && body == [] && at == 0
    ensures head.status != 416 && !isHead ==>
      var start := if head.contentRange.Some? then head.contentRange.value.0 else 0;
      && Sent(body, content, start) && |body| <= head.contentLength
      && (outcome.Done? ==> |body| == head.contentLength && |body| <= 65536 * |waits|)
      && (outcome.Done? ==> 0 < at <= |script| && script[at - 1].flushed && !script[at - 1].aborted)
      && (outcome.Done? ==> forall k | 0 <= k < |waits| :: waits[k].1 < at)
      && (outcome.Buffering? || outcome.Gone? ==> |body| < head.contentLength)
    ensures Justified(script, at, outcome, Min(waitMs, gate.waitMs))
    ensures Flawless(script, gate.layout, content) && Fine(old(gate.Cached()), gate.layout) ==>
      |script| > 3 * Chunks(|content|) ==> outcome.Done?
  {
    var size := gate.layout.bytes;
    var range := ParseRange(header, size);
    ParseRangeMeaning(header, size);
    head := HeadFor(range, size);
    if range.Unsatisfiable? || isHead { return Done, head, [], 0, [], []; }
    var start := if range.Bytes? then range.start else 0;
    var end := if range.Bytes? then range.end else size - 1;
    ghost var smooth := Flawless(script, gate.layout, content) && Fine(gate.Cached(), gate.layout)
      && |script| > 3 * Chunks(|content|);
    ChunksGrow(end + 1 - start, |content|);
    outcome, at, body, reads_, waits := SendGated(gate, script, start, end, waitMs, offset, content);
    if outcome.Done? {
      assert smooth ==> at < |script| && !script[at].aborted && script[at].flushed;
      outcome, at := AwaitFlush(script, at, None);
    }
  }
}
