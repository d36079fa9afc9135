/** correct_write and correct_read of server/common.c on the two ends of a stream. */
module BytePipe {
  import opened Prelude

  // What one call of read or write does: it moves up to n bytes, it fails with EAGAIN or EINTR, or it
  // returns 0 or -1 (with another errno).
  datatype Result = Part(n: nat) | Retry | Stop(ret: int)

  predicate Possible(x: Result) {
    (x.Part? ==> x.n > 0) && (x.Stop? ==> x.ret == 0 || x.ret == -1)
  }

  function Min(a: nat, b: nat): nat { if a < b then a else b }

  /** How many bytes the results before the first Stop would move, if there were enough. */
  function Offered(results: seq<Result>): nat {
    if results == [] || results[0].Stop? then 0
    else (if results[0].Part? then results[0].n else 0) + Offered(results[1..])
  }

  /** The first Stop among the results. */
  function Stopped(results: seq<Result>): Option<int> {
    if results == [] then None else if results[0].Stop? then Some(results[0].ret) else Stopped(results[1..])
  }

  /** What a call returns that moves that many bytes: len, or what made it stop; None while it goes on. */
  function Returned(len: nat, moved: nat, results: seq<Result>): Option<int> {
    if moved >= len then Some(len) else Stopped(results)
  }

  lemma {:induction false} StoppedIsPossible(results: seq<Result>)
    requires forall i :: 0 <= i < |results| ==> Possible(results[i])
    ensures Stopped(results).Some? ==> Stopped(results).value == 0 || Stopped(results).value == -1
  {
    if results != [] {
      assert Possible(results[0]);
      StoppedIsPossible(results[1..]);
    }
  }

  /** Except when there was nothing to move, a call returns the length exactly when it has moved everything. */
  lemma FullReturnExactly(len: nat, moved: nat, results: seq<Result>)
    requires len > 0 && forall i :: 0 <= i < |results| ==> Possible(results[i])
    ensures Returned(len, moved, results) == Some(len) <==> moved >= len
  {
    StoppedIsPossible(results);
  }

  /** The first n of xs, written over now from index at. */
  function Overwritten(now: seq<char>, at: nat, xs: seq<char>, n: nat): (r: seq<char>)
    requires at + n <= |now| && n <= |xs|
    ensures |r| == |now|
  {
    now[..at] + xs[..n] + now[at + n..]
  }

  function Behind(xs: seq<char>, n: nat): (r: seq<char>)
    requires n <= |xs|
    ensures |r| == |xs| - n
  {
    xs[n..]
  }

  lemma OverwriteMore(was: seq<char>, xs: seq<char>, a: nat, b: nat)
    requires a + b <= |xs| && a + b <= |was|
    ensures Overwritten(Overwritten(was, 0, xs, a), a, Behind(xs, a), b) == Overwritten(was, 0, xs, a + b)
    ensures Behind(Behind(xs, a), b) == Behind(xs, a + b)
  {
  }

  /** xs from index from to index to, behind was. */
  function Appended(was: seq<char>, xs: seq<char>, from: nat, to: nat): seq<char>
    requires from <= to <= |xs|
  {
    was + xs[from..to]
  }

  lemma AppendMore(was: seq<char>, xs: seq<char>, a: nat, b: nat)
    requires a + b <= |xs|
    ensures Appended(Appended(was, xs, 0, a), xs, a, a + b) == Appended(was, xs, 0, a + b)
  {
    assert xs[0..a] + xs[a..a + b] == xs[0..a + b];
  }

  /** How much of len a call moves that is offered so much, with so much available. */
  function Amount(len: nat, offered: nat, available: nat): (n: nat)
    ensures n <= len && n <= available
  {
    Min(len, Min(offered, available))
  }

  // The bytes between the two ends.
  class Stream {
    var bytes: seq<char>

    constructor ()
      ensures bytes == []
    {
      bytes := [];
    }

    /** strlen */
    method StringLength(data: array<char>) returns (len: nat)
      requires exists i :: 0 <= i < data.Length && data[i] == '\0'
      ensures len < data.Length && data[len] == '\0' && forall i :: 0 <= i < len ==> data[i] != '\0'
    {
      len := 0;
      while data[len] != '\0'
        invariant len < data.Length && forall i :: 0 <= i < len ==> data[i] != '\0'
        decreases data.Length - len
      {
        len := len + 1;
      }
    }

    /** write of max bytes of data behind the first sofar ones, when it moves up to n. */
    method Write(data: array<char>, sofar: nat, max: nat, n: nat) returns (moved: nat)
      requires sofar + max <= data.Length
      modifies this
      ensures moved == Min(n, max) && bytes == Appended(old(bytes), data[..], sofar, sofar + moved)
    {
      moved := Min(n, max);
      bytes := bytes + data[sofar..sofar + moved];
    }

    /** read of max bytes to data behind the first sofar ones, when it moves up to n. */
    method Read(data: array<char>, sofar: nat, max: nat, n: nat) returns (moved: nat)
      requires sofar + max <= data.Length
      modifies this, data
      ensures moved == Min(Min(n, max), |old(bytes)|) && bytes == Behind(old(bytes), moved)
      ensures data[..] == Overwritten(old(data[..]), sofar, old(bytes), moved)
    {
      moved := Min(Min(n, max), |bytes|);
      forall k | 0 <= k < moved {
        data[sofar + k] := bytes[k];
      }
      bytes := bytes[moved..];
    }

    /**
     correct_write: whatever the results of the writes, exactly the first sofar bytes are sent, where sofar
     is what the results offer before one of them stops the call.
    */
    method CorrectWrite(data: array<char>, len: int, results: seq<Result>)
      returns (ret: Option<int>, total: nat, sofar: nat)
      requires if len == -1 then exists i :: 0 <= i < data.Length && data[i] == '\0' else 0 <= len <= data.Length
      modifies this
      ensures total <= data.Length && (len != -1 ==> total == len)
      ensures len == -1 ==> total < data.Length && data[total] == '\0' && forall i :: 0 <= i < total ==> data[i] != '\0'
      ensures sofar == Min(total, Offered(results)) && ret == Returned(total, Offered(results), results)
      ensures bytes == Appended(old(bytes), data[..], 0, sofar)
    {
      if len == -1 {
        total := StringLength(data);
      } else {
        total := len;
      }
      assert Appended(bytes, data[..], 0, 0) == bytes;
      hide Appended;
      sofar := 0;
      var i := 0;
      ghost var offered: nat := 0;
      while sofar != total && i < |results|
        invariant i <= |results| && sofar == Min(total, offered)
        invariant Offered(results) == offered + Offered(results[i..]) && Stopped(results) == Stopped(results[i..])
        invariant bytes == Appended(old(bytes), data[..], 0, sofar)
      {
        assert results[i..][1..] == results[i + 1..];
        if results[i].Part? {
          var moved := Write(data, sofar, total - sofar, results[i].n);
          AppendMore(old(bytes), data[..], sofar, moved);
          sofar := sofar + moved;
          offered := offered + results[i].n;
        } else if results[i].Stop? {
          return Some(results[i].ret), total, sofar;
        }
        i := i + 1;
      }
      ret := if sofar == total then Some(total) else None;
    }

    /** The first sofar bytes of had have been moved over the front of was. */
    ghost predicate HasRead(data: array<char>, was: seq<char>, had: seq<char>, sofar: nat)
      reads this, data
    {
      && sofar <= |was| == data.Length && sofar <= |had|
      && bytes == Behind(had, sofar) && data[..] == Overwritten(was, 0, had, sofar)
    }

    method ReadMore(data: array<char>, sofar: nat, max: nat, n: nat, ghost was: seq<char>, ghost had: seq<char>)
      returns (moved: nat)
      requires sofar + max <= data.Length && HasRead(data, was, had, sofar)
      modifies this, data
      ensures HasRead(data, was, had, sofar + moved) && moved == Min(Min(n, max), |had| - sofar)
    {
      moved := Read(data, sofar, max, n);
      OverwriteMore(was, had, sofar, moved);
    }

    /**
     correct_read: exactly the first sofar bytes of the stream are moved to the front of data; the rest of
     the stream, and of data, stays. sofar is what the results offer, up to what the stream holds.
    */
    method CorrectRead(data: array<char>, len: nat, results: seq<Result>) returns (ret: Option<int>, sofar: nat)
      requires len <= data.Length
      modifies this, data
      ensures sofar == Amount(len, Offered(results), |old(bytes)|)
      ensures ret == Returned(len, Min(Offered(results), |old(bytes)|), results)
      ensures HasRead(data, old(data[..]), old(bytes), sofar)
    {
      ghost var was, had := data[..], bytes;
      assert HasRead(data, was, had, 0);
      hide HasRead;
      sofar := 0;
      var i := 0;
      ghost var offered: nat := 0;
      while sofar != len && i < |results|
        invariant i <= |results| && sofar == Amount(len, offered, |had|)
        invariant Offered(results) == offered + Offered(results[i..]) && Stopped(results) == Stopped(results[i..])
        invariant HasRead(data, was, had, sofar)
      {
        assert results[i..][1..] == results[i + 1..];
        if results[i].Part? {
          var moved := ReadMore(data, sofar, len - sofar, results[i].n, was, had);
          sofar := sofar + moved;
          offered := offered + results[i].n;
        } else if results[i].Stop? {
          return Some(results[i].ret), sofar;
        }
        i := i + 1;
      }
      ret := if sofar == len then Some(len) else None;
    }
  }

  /** One end writes, the other reads as much into an equal buffer, from a stream with nothing on the way. */
  method Transfer(stream: Stream, src: array<char>, dst: array<char>, len: nat, writes: seq<Result>,
      reading: seq<Result>)
    returns (written: Option<int>, read: Option<int>)
    requires 0 < len <= src.Length && len <= dst.Length && src != dst && stream.bytes == []
    requires forall i :: 0 <= i < |writes| ==> Possible(writes[i])
    requires forall i :: 0 <= i < |reading| ==> Possible(reading[i])
    modifies stream, dst
    ensures written == Some(len) ==> Offered(writes) >= len
    ensures read == Some(len) ==> dst[..len] == old(src[..len])
    ensures written == Some(len) && read == Some(len) ==> stream.bytes == []
    ensures written == Some(len) && Offered(reading) >= len ==> read == Some(len)
    ensures src[..] == old(src[..]) && dst[len..] == old(dst[len..])
  {
    var total, sent;
    written, total, sent := stream.CorrectWrite(src, len, writes);
    FullReturnExactly(len, Offered(writes), writes);
    ghost var bytes := stream.bytes;
    assert bytes == src[..sent];
    var got;
    read, got := stream.CorrectRead(dst, len, reading);
    FullReturnExactly(len, Min(Offered(reading), |bytes|), reading);
  }

  // -------------------------------------------------------------------- both ends at once

  // Between any two calls of write the other end may read. sent and |got| are the counters sofar of the two
  // loops; wrote and read are what has stopped them.
  datatype Pipe = Pipe(sent: nat, wire: seq<char>, got: seq<char>, wrote: Option<int>, read: Option<int>)

  const START: Pipe := Pipe(0, [], [], None, None)

  // One turn of the loop of either end, with the result of its call.
  datatype Move = Writes(x: Result) | Reads(x: Result)

  predicate Fits(data: seq<char>, p: Pipe) {
    p.sent <= |data| && |p.got| <= |data|
  }

  function Moved(data: seq<char>, p: Pipe, m: Move): (p': Pipe)
    requires Fits(data, p)
    ensures Fits(data, p')
  {
    match m
    case Writes(x) =>
      if p.sent == |data| || p.wrote.Some? then p
      else (
        match x
        case Part(n) =>
          var k := Min(n, |data| - p.sent);
          p.(sent := p.sent + k, wire := p.wire + data[p.sent..p.sent + k])
        case Retry => p
        case Stop(r) => p.(wrote := Some(r))
      )
    case Reads(x) =>
      if |p.got| == |data| || p.read.Some? then p
      else (
        match x
        case Part(n) =>
          var k := Min(Min(n, |data| - |p.got|), |p.wire|);
          p.(got := p.got + p.wire[..k], wire := p.wire[k..])
        case Retry => p
        case Stop(r) => p.(read := Some(r))
      )
  }

  function AllMoved(data: seq<char>, p: Pipe, ms: seq<Move>): (p': Pipe)
    requires Fits(data, p)
    ensures Fits(data, p')
    decreases |ms|
  {
    if ms == [] then p else AllMoved(data, Moved(data, p, ms[0]), ms[1..])
  }

  lemma {:induction false} NothingIsLost(data: seq<char>, p: Pipe, ms: seq<Move>)
    requires Fits(data, p) && p.got + p.wire == data[..p.sent]
    ensures var p' := AllMoved(data, p, ms); p'.got + p'.wire == data[..p'.sent]
    decreases |ms|
  {
    if ms != [] {
      var p1 := Moved(data, p, ms[0]);
      assert p1.got + p1.wire == data[..p1.sent] by {
        if ms[0].Writes? {
          assert p.got + (p.wire + data[p.sent..p1.sent]) == p.got + p.wire + data[p.sent..p1.sent];
        } else {
          assert p.got + p.wire == p1.got + p1.wire;
        }
      }
      NothingIsLost(data, p1, ms[1..]);
    }
  }

  /** The results of the calls of write. */
  function WriteResults(ms: seq<Move>): seq<Result> {
    if ms == [] then [] else (if ms[0].Writes? then [ms[0].x] else []) + WriteResults(ms[1..])
  }

  /** What correct_write has returned: the length, or what stopped it. */
  function WriterReturns(data: seq<char>, p: Pipe): Option<int> {
    if p.sent == |data| then Some(|data|) else p.wrote
  }

  /** The reader makes no difference to the writer: it sends and returns what correct_write does by itself. */
  lemma {:induction false} WriterIsAlone(data: seq<char>, p: Pipe, ms: seq<Move>)
    requires Fits(data, p) && p.wrote == None
    ensures var p', rs := AllMoved(data, p, ms), WriteResults(ms);
            && p'.sent == Min(|data|, p.sent + Offered(rs))
            && WriterReturns(data, p') == Returned(|data|, p.sent + Offered(rs), rs)
    decreases |ms|
  {
    if ms != [] {
      var p1 := Moved(data, p, ms[0]);
      var rs := WriteResults(ms);
      assert ms[0].Writes? ==> rs[0] == ms[0].x && rs[1..] == WriteResults(ms[1..]);
      assert ms[0].Reads? ==> rs == WriteResults(ms[1..]);
      if p.sent == |data| || p1.wrote.Some? {
        WriterHasStopped(data, p1, ms[1..]);
      } else {
        WriterIsAlone(data, p1, ms[1..]);
      }
    }
  }

  lemma {:induction false} WriterHasStopped(data: seq<char>, p: Pipe, ms: seq<Move>)
    requires Fits(data, p) && (p.sent == |data| || p.wrote.Some?)
    ensures AllMoved(data, p, ms).sent == p.sent && AllMoved(data, p, ms).wrote == p.wrote
    decreases |ms|
  {
    if ms != [] {
      WriterHasStopped(data, Moved(data, p, ms[0]), ms[1..]);
    }
  }

  // -------------------------------------------------------------------- the reading end

  /** The results of the calls of read. */
  function ReadResults(ms: seq<Move>): seq<Result> {
    if ms == [] then [] else (if ms[0].Reads? then [ms[0].x] else []) + ReadResults(ms[1..])
  }

  /** What correct_read has returned: the length, or what stopped it. */
  function ReaderReturns(data: seq<char>, p: Pipe): Option<int> {
    if |p.got| == |data| then Some(|data|) else p.read
  }

  /**
   A turn of a reader that has not returned, whose read may move n bytes: it gets the next ones, as many as that,
   as are on the way, and as it still wants; the writer is not concerned.
  */
  lemma ReadTurn(data: seq<char>, p: Pipe, n: nat)
    requires Fits(data, p) && p.got + p.wire == data[..p.sent] && ReaderReturns(data, p) == None
    ensures var p', k := Moved(data, p, Reads(Part(n))), Min(n, Min(p.sent, |data|) - |p.got|);
            && 0 <= p.sent - |p.got| == |p.wire|
            && p'.got == data[..|p.got| + k] && p'.got + p'.wire == data[..p.sent]
            && p'.sent == p.sent && p'.wrote == p.wrote && p'.read == None
  {
    var k := Min(n, |p.wire|);
    assert |p.got + p.wire| == p.sent;
    assert p.got + p.wire[..k] + p.wire[k..] == p.got + p.wire;
    assert (p.got + p.wire)[..|p.got| + k] == p.got + p.wire[..k];
  }

  /** Any turn, once the writer has sent everything. */
  lemma ReaderTurns(data: seq<char>, p: Pipe, m: Move)
    requires Fits(data, p) && p.sent == |data| && p.got + p.wire == data && p.read == None
    ensures var p' := Moved(data, p, m);
            && p'.sent == |data| && p'.got + p'.wire == data
            && (m.Writes? || (m.x.Retry? && ReaderReturns(data, p) == None) ==> p' == p)
            && (m.Reads? && m.x.Part? ==> p'.read == None && |p'.got| == Min(|data|, |p.got| + m.x.n))
            && (m.Reads? && m.x.Stop? && |p.got| < |data| ==> p'.got == p.got && p'.read == Some(m.x.ret))
            && (|p.got| == |data| ==> p' == p)
  {
    assert data[..|data|] == data;
    assert |p.got + p.wire| == |data|;
    if m.Reads? && m.x.Part? && |p.got| < |data| {
      ReadTurn(data, p, m.x.n);
      assert data[..Min(|data|, |p.got| + m.x.n)] == Moved(data, p, m).got;
    }
  }

  lemma {:induction false} ReaderHasStopped(data: seq<char>, p: Pipe, ms: seq<Move>)
    requires Fits(data, p) && ReaderReturns(data, p).Some?
    ensures AllMoved(data, p, ms).got == p.got
    ensures ReaderReturns(data, AllMoved(data, p, ms)) == ReaderReturns(data, p)
    decreases |ms|
  {
    if ms != [] {
      ReaderHasStopped(data, Moved(data, p, ms[0]), ms[1..]);
    }
  }

  /**
   Once the writer has sent everything, the reader reads and returns what correct_read does by itself, on the same
   results, from a stream that holds all that it still wants.
  */
  lemma {:induction false} ReaderIsAlone(data: seq<char>, p: Pipe, ms: seq<Move>)
    requires Fits(data, p) && p.sent == |data| && p.got + p.wire == data && p.read == None
    ensures var p', rs := AllMoved(data, p, ms), ReadResults(ms);
            && p'.got == data[..Min(|data|, |p.got| + Offered(rs))]
            && ReaderReturns(data, p') == Returned(|data|, |p.got| + Offered(rs), rs)
    decreases |ms|
  {
    assert data[..|data|] == data && p.got == data[..|p.got|];
    if ms != [] {
      hide Moved;
      ReaderTurns(data, p, ms[0]);
      var p1 := Moved(data, p, ms[0]);
      var rs := ReadResults(ms);
      assert ms[0].Reads? ==> rs[0] == ms[0].x && rs[1..] == ReadResults(ms[1..]);
      assert ms[0].Writes? ==> rs == ReadResults(ms[1..]) && p1 == p;
      if ReaderReturns(data, p1).Some? {
        ReaderHasStopped(data, p1, ms[1..]);
      } else {
        ReaderIsAlone(data, p1, ms[1..]);
      }
    }
  }

  lemma {:induction false} MovedOn(data: seq<char>, p: Pipe, first: seq<Move>, later: seq<Move>)
    requires Fits(data, p)
    ensures AllMoved(data, p, first + later) == AllMoved(data, AllMoved(data, p, first), later)
    decreases |first|
  {
    if first == [] {
      assert first + later == later;
    } else {
      assert (first + later)[0] == first[0] && (first + later)[1..] == first[1..] + later;
      MovedOn(data, Moved(data, p, first[0]), first[1..], later);
    }
  }

  lemma {:induction false} NotStopped(data: seq<char>, p: Pipe, ms: seq<Move>)
    requires Fits(data, p) && p.read == None && Stopped(ReadResults(ms)) == None
    ensures AllMoved(data, p, ms).read == None
    decreases |ms|
  {
    if ms != [] {
      assert ms[0].Reads? ==> ReadResults(ms)[0] == ms[0].x && ReadResults(ms)[1..] == ReadResults(ms[1..]);
      assert ms[0].Writes? ==> ReadResults(ms) == ReadResults(ms[1..]);
      NotStopped(data, Moved(data, p, ms[0]), ms[1..]);
    }
  }

  /**
   All arrives: if the calls of write offer to move all of data during the first part of an interleaving, and the
   calls of read offer the rest in the later part, without a failure, the reader gets all of data and returns its
   length.
  */
  lemma AllArrives(data: seq<char>, first: seq<Move>, later: seq<Move>)
    requires Offered(WriteResults(first)) >= |data| && Stopped(ReadResults(first)) == None
    requires |AllMoved(data, START, first).got| + Offered(ReadResults(later)) >= |data|
    ensures var p := AllMoved(data, START, first + later); p.got == data && ReaderReturns(data, p) == Some(|data|)
  {
    hide AllMoved, WriteResults, ReadResults, Offered, Stopped;
    var p := AllMoved(data, START, first);
    WriterIsAlone(data, START, first);
    NothingIsLost(data, START, first);
    NotStopped(data, START, first);
    assert data[..|data|] == data;
    ReaderIsAlone(data, p, later);
    MovedOn(data, START, first, later);
  }

  /**
   Round trip, for any interleaving of the two ends and any results: what was read is a first part of what
   was written, which is what correct_write sends by itself; and once the reader has its len bytes they are
   the data, the writer has sent everything, and nothing is left on the way.
  */
  lemma ReliablePipe(data: seq<char>, ms: seq<Move>)
    ensures var p, rs := AllMoved(data, START, ms), WriteResults(ms);
            && p.sent == Min(|data|, Offered(rs)) && WriterReturns(data, p) == Returned(|data|, Offered(rs), rs)
            && p.got <= data[..p.sent] && p.got + p.wire == data[..p.sent]
            && (|p.got| == |data| ==> p.got == data && p.sent == |data| && p.wire == [])
  {
    WriterIsAlone(data, START, ms);
    NothingIsLost(data, START, ms);
  }
}
