/** Runs of get_next_message over any number of sockets: what is delivered, and what closing a socket leaves behind. */
module Delivery {
  import opened Prelude
  import opened Framing
  import opened Reassembly
  import opened Cleaning

  // -------------------------------------------------------------------- runs

  // One get_next_message(s), with what its reads return; closed says that the last one finds the end of the file.
  datatype Call = Call(s: int, chunks: seq<Text>, closed: bool)

  function CallStep(list: seq<Entry>, call: Call): (Option<Text>, seq<Entry>) {
    var received := ReceivedAll(list, call.s, call.chunks);
    if call.closed then (None, Cleaned(received, call.s)) else Taken(received, call.s)
  }

  function AfterCalls(list: seq<Entry>, calls: seq<Call>): seq<Entry>
    decreases |calls|
  {
    if calls == [] then list else AfterCalls(CallStep(list, calls[0]).1, calls[1..])
  }

  /** The messages that the calls return for s. */
  function Got(list: seq<Entry>, calls: seq<Call>, s: int): seq<Text>
    decreases |calls|
  {
    if calls == [] then []
    else
      var (c, rest) := CallStep(list, calls[0]);
      (if calls[0].s == s then Handed(c) else []) + Got(rest, calls[1..], s)
  }

  /** None of the calls closes s; they may close other sockets. */
  ghost predicate StaysOpen(calls: seq<Call>, s: int) {
    forall i :: 0 <= i < |calls| && calls[i].s == s ==> !calls[i].closed
  }

  /** The reads on s. */
  function ChunksOf(calls: seq<Call>, s: int): seq<Text> {
    if calls == [] then [] else (if calls[0].s == s then calls[0].chunks else []) + ChunksOf(calls[1..], s)
  }

  lemma {:induction false} HeardConcat(q: Parse, a: seq<Text>, b: seq<Text>)
    ensures Heard(q, a + b) == Heard(Heard(q, a), b)
    decreases |a|
  {
    if a == [] {
      assert a + b == b;
    } else {
      assert (a + b)[0] == a[0] && (a + b)[1..] == a[1..] + b;
      HeardConcat(Feed(q, Strip(a[0])), a[1..], b);
    }
  }

  lemma {:induction false} HeardBehind(earlier: seq<Text>, q: Parse, chunks: seq<Text>)
    ensures Heard(Parse(earlier + q.done, q.pending), chunks)
         == Parse(earlier + Heard(q, chunks).done, Heard(q, chunks).pending)
    decreases |chunks|
  {
    if chunks != [] {
      FeedBehind(earlier, q, Strip(chunks[0]));
      HeardBehind(earlier, Feed(q, Strip(chunks[0])), chunks[1..]);
    }
  }

  /** Calls for other sockets, also those that close them, leave a socket's messages alone. */
  lemma OtherCall(list: seq<Entry>, call: Call, s: int)
    requires call.s != s
    ensures Of(CallStep(list, call).1, s) == Of(list, s)
  {
    ReceivedAllOther(list, call.s, call.chunks, s);
    if call.closed {
      CleanedOther(ReceivedAll(list, call.s, call.chunks), call.s, s);
    } else {
      TakenOther(ReceivedAll(list, call.s, call.chunks), call.s, s);
    }
  }

  /** A call for s parses its reads, and then hands out the first complete message. */
  lemma OwnCall(list: seq<Entry>, call: Call, q: Parse) returns (q': Parse)
    requires Of(list, call.s) == Pieces(q) && !call.closed
    ensures Of(CallStep(list, call).1, call.s) == Pieces(q')
    ensures Heard(q, call.chunks) == Parse(Handed(CallStep(list, call).0) + q'.done, q'.pending)
    ensures CallStep(list, call).0 == None ==> Heard(q, call.chunks).done == []
  {
    ReceivedAllOf(list, call.s, call.chunks, q);
    q' := TakenView(ReceivedAll(list, call.s, call.chunks), call.s, Heard(q, call.chunks));
  }

  /** What was handed out first stands in front of what is handed out later. */
  lemma HeardOn(q: Parse, chunks: seq<Text>, first: seq<Text>, q1: Parse, rest: seq<Text>, later: seq<Text>, q': Parse)
    requires Heard(q, chunks) == Parse(first + q1.done, q1.pending)
    requires Heard(q1, rest) == Parse(later + q'.done, q'.pending)
    ensures Heard(q, chunks + rest) == Parse(first + later + q'.done, q'.pending)
  {
    HeardConcat(q, chunks, rest);
    HeardBehind(first, q1, rest);
    assert first + (later + q'.done) == first + later + q'.done;
  }

  /**
   Conservation, for any interleaving of sockets that may be closed, as long as s is not: what the calls returned
   for s and what the list holds of s are, together and in order, the parse of what was read on s.
  */
  lemma {:induction false} Conserved(list: seq<Entry>, calls: seq<Call>, s: int, q: Parse) returns (q': Parse)
    requires Of(list, s) == Pieces(q) && StaysOpen(calls, s)
    ensures Of(AfterCalls(list, calls), s) == Pieces(q')
    ensures Heard(q, ChunksOf(calls, s)) == Parse(Got(list, calls, s) + q'.done, q'.pending)
    decreases |calls|
  {
    hide Of, CallStep, Pieces;
    if calls == [] {
      q' := q;
      assert Got(list, calls, s) + q.done == q.done;
    } else {
      var (c, list') := CallStep(list, calls[0]);
      if calls[0].s == s {
        var q1 := OwnCall(list, calls[0], q);
        q' := Conserved(list', calls[1..], s, q1);
        HeardOn(q, calls[0].chunks, Handed(c), q1, ChunksOf(calls[1..], s), Got(list', calls[1..], s), q');
      } else {
        OtherCall(list, calls[0], s);
        q' := Conserved(list', calls[1..], s, q);
        assert ChunksOf(calls, s) == ChunksOf(calls[1..], s) && Got(list, calls, s) == Got(list', calls[1..], s);
      }
    }
  }

  // -------------------------------------------------------------------- the round trip

  /** The list of a fresh process. */
  lemma NothingYet(s: int)
    ensures Of([], s) == Pieces(EMPTY)
  {
  }

  /**
   The stream of s reaches the caller as it was sent exactly when no read on s begins with the NUL that
   ends a pending message.
  */
  lemma DeliversAsSentExactly(calls: seq<Call>, s: int) returns (q': Parse)
    requires StaysOpen(calls, s)
    ensures Of(AfterCalls([], calls), s) == Pieces(q')
    ensures Parse(Got([], calls, s) + q'.done, q'.pending) == Feed(EMPTY, Concat(ChunksOf(calls, s)))
       <==> CleanCuts(EMPTY, ChunksOf(calls, s))
  {
    NothingYet(s);
    q' := Conserved([], calls, s, EMPTY);
    HeardAsMeantExactly(EMPTY, ChunksOf(calls, s));
  }

  /**
   Round trip: while the messages ms arrive on s, in any cutting with clean cuts and between any calls for
   other sockets, what the calls returned and what is waiting are the first k messages in order, and the
   rest of what arrived is a first part of the next one.
  */
  lemma RoundTrip(calls: seq<Call>, s: int, ms: seq<Text>) returns (q': Parse, k: nat)
    requires StaysOpen(calls, s) && AllProper(ms)
    requires Concat(ChunksOf(calls, s)) <= Encode(ms) && CleanCuts(EMPTY, ChunksOf(calls, s))
    ensures Of(AfterCalls([], calls), s) == Pieces(q')
    ensures k <= |ms| && Got([], calls, s) + q'.done == ms[..k]
    ensures q'.pending == [] || (k < |ms| && q'.pending <= ms[k])
    ensures Concat(ChunksOf(calls, s)) == Encode(ms) ==> k == |ms| && q'.pending == []
  {
    q' := DeliversAsSentExactly(calls, s);
    k := ParsePrefix(EMPTY, ms, Concat(ChunksOf(calls, s)));
    assert [] + ms[..k] == ms[..k] && [] + ms == ms;
    ParseEncoded(EMPTY, ms);
  }

  /** n calls of get_next_message(s) with nothing to read. */
  function Polls(s: int, n: nat): seq<Call> {
    if n == 0 then [] else [Call(s, [], false)] + Polls(s, n - 1)
  }

  lemma {:induction false} Drain(list: seq<Entry>, s: int, q: Parse)
    requires Of(list, s) == Pieces(q)
    ensures Got(list, Polls(s, |q.done|), s) == q.done
    decreases |q.done|
  {
    if q.done != [] {
      var polls := Polls(s, |q.done|);
      assert polls[0] == Call(s, [], false) && polls[1..] == Polls(s, |q.done| - 1);
      var q' := OwnCall(list, polls[0], q);
      Drain(CallStep(list, polls[0]).1, s, q');
    }
  }

  lemma {:induction false} GotConcat(list: seq<Entry>, a: seq<Call>, b: seq<Call>, s: int)
    ensures Got(list, a + b, s) == Got(list, a, s) + Got(AfterCalls(list, a), b, s)
    decreases |a|
  {
    hide CallStep, Handed;
    if a == [] {
      assert a + b == b;
    } else {
      assert (a + b)[0] == a[0] && (a + b)[1..] == a[1..] + b;
      GotConcat(CallStep(list, a[0]).1, a[1..], b, s);
    }
  }

  /**
   Once all of ms has arrived, get_next_message(s) hands out exactly ms, after as many calls as there are
   messages left.
  */
  lemma AllDelivered(calls: seq<Call>, s: int, ms: seq<Text>)
    requires StaysOpen(calls, s) && AllProper(ms)
    requires Concat(ChunksOf(calls, s)) == Encode(ms) && CleanCuts(EMPTY, ChunksOf(calls, s))
    ensures |Got([], calls, s)| <= |ms|
    ensures Got([], calls + Polls(s, |ms| - |Got([], calls, s)|), s) == ms
  {
    var q', k := RoundTrip(calls, s, ms);
    Drain(AfterCalls([], calls), s, q');
    GotConcat([], calls, Polls(s, |q'.done|), s);
    assert ms[..k] == ms;
  }

  // -------------------------------------------------------------------- entries that fit

  lemma {:induction false} ChunksOfConcat(a: seq<Call>, b: seq<Call>, s: int)
    ensures ChunksOf(a + b, s) == ChunksOf(a, s) + ChunksOf(b, s)
    decreases |a|
  {
    if a == [] {
      assert a + b == b;
    } else {
      assert (a + b)[0] == a[0] && (a + b)[1..] == a[1..] + b;
      ChunksOfConcat(a[1..], b, s);
    }
  }

  /**
   With messages shorter than MAXBUFF and clean cuts, every entry fits its buffer behind any of the reads
   of any call: the appends of handle stay inside it.
  */
  lemma EntriesFit(calls: seq<Call>, call: Call, ms: seq<Text>)
    requires StaysOpen(calls, call.s) && AllProper(ms) && forall i :: 0 <= i < |ms| ==> |ms[i]| < MAXBUFF
    requires Concat(ChunksOf(calls + [call], call.s)) <= Encode(ms)
    requires CleanCuts(EMPTY, ChunksOf(calls + [call], call.s))
    ensures forall x :: x in Of(ReceivedAll(AfterCalls([], calls), call.s, call.chunks), call.s) ==> |x.text| < MAXBUFF
  {
    var s, list := call.s, AfterCalls([], calls);
    NothingYet(s);
    var q := Conserved([], calls, s, EMPTY);
    var got, q1 := Got([], calls, s), Heard(q, call.chunks);
    ReceivedAllOf(list, s, call.chunks, q);
    HeardOn(EMPTY, ChunksOf(calls, s), got, q, call.chunks, [], q1);
    ChunksOfConcat(calls, [call], s);
    assert ChunksOf([call], s) == call.chunks;
    HeardAsMeantExactly(EMPTY, ChunksOf(calls + [call], s));
    var k := ParsePrefix(EMPTY, ms, Concat(ChunksOf(calls + [call], s)));
    FromMessages(ms, k, got, q1);
  }

  lemma FromMessages(ms: seq<Text>, k: nat, got: seq<Text>, q: Parse)
    requires k <= |ms| && forall i :: 0 <= i < |ms| ==> |ms[i]| < MAXBUFF
    requires got + [] + q.done == [] + ms[..k] && (q.pending == [] || (k < |ms| && q.pending <= ms[k]))
    ensures forall x :: x in Pieces(q) ==> |x.text| < MAXBUFF
  {
    forall i | 0 <= i < |Pieces(q)|
      ensures |Pieces(q)[i].text| < MAXBUFF
    {
      if i < |q.done| {
        assert q.done[i] == (got + [] + q.done)[|got| + i] == ms[|got| + i];
      }
    }
  }

  // -------------------------------------------------------------------- sockets that are closed

  /** No message is empty. */
  ghost predicate Filled(q: Parse) {
    forall i :: 0 <= i < |q.done| ==> q.done[i] != []
  }

  lemma {:induction false} FeedFills(q: Parse, d: Text)
    requires Filled(q)
    ensures Filled(Feed(q, d))
    decreases |d|
  {
    if d != [] {
      FeedFills(FeedByte(q, d[0]), d[1..]);
    }
  }

  lemma {:induction false} HeardFills(q: Parse, chunks: seq<Text>)
    requires Filled(q)
    ensures Filled(Heard(q, chunks))
    decreases |chunks|
  {
    if chunks != [] {
      FeedFills(q, Strip(chunks[0]));
      HeardFills(Feed(q, Strip(chunks[0])), chunks[1..]);
    }
  }

  lemma {:induction false} AsParse(v: seq<Piece>) returns (q: Parse)
    requires Settled(v) && forall x :: x in v ==> x.text != []
    ensures Pieces(q) == v && Filled(q)
    decreases |v|
  {
    if v == [] {
      q := EMPTY;
    } else if !v[0].complete {
      q := Parse([], v[0].text);
      assert v == [v[0]];
    } else {
      assert forall i :: 0 <= i < |v[1..]| ==> v[1..][i] == v[i + 1];
      var rest := AsParse(v[1..]);
      q := Parse([v[0].text] + rest.done, rest.pending);
      assert Complete(q.done) == [v[0]] + Complete(rest.done);
      assert Pieces(q) == [v[0]] + Pieces(rest);
    }
  }

  /** What a close leaves of its socket. */
  lemma ClosingCall(list: seq<Entry>, call: Call, q: Parse) returns (q': Parse)
    requires Of(list, call.s) == Pieces(q) && Filled(q) && call.closed
    ensures Of(CallStep(list, call).1, call.s) == Pieces(q') && Filled(q')
  {
    ReceivedAllOf(list, call.s, call.chunks, q);
    var q1 := Heard(q, call.chunks);
    HeardFills(q, call.chunks);
    assert forall x :: x in Pieces(q1) ==> x.text != [];
    CleanedSettled(ReceivedAll(list, call.s, call.chunks), call.s, call.s);
    q' := AsParse(Of(CallStep(list, call).1, call.s));
  }

  /** After any calls, with any closing of sockets, the share of a socket in the list is that of some parse. */
  lemma {:induction false} Parsed(list: seq<Entry>, calls: seq<Call>, s: int, q: Parse) returns (q': Parse)
    requires Of(list, s) == Pieces(q) && Filled(q)
    ensures Of(AfterCalls(list, calls), s) == Pieces(q') && Filled(q')
    decreases |calls|
  {
    q' := q;
    if calls != [] {
      var list' := CallStep(list, calls[0]).1;
      if calls[0].s != s {
        OtherCall(list, calls[0], s);
      } else if calls[0].closed {
        q' := ClosingCall(list, calls[0], q);
      } else {
        q' := OwnCall(list, calls[0], q);
        HeardFills(q, calls[0].chunks);
        FilledBehind(Handed(CallStep(list, calls[0]).0), q');
      }
      hide CallStep, Of, Pieces;
      q' := Parsed(list', calls[1..], s, q');
    }
  }

  lemma FilledBehind(first: seq<Text>, q: Parse)
    requires Filled(Parse(first + q.done, q.pending))
    ensures Filled(q)
  {
    forall i | 0 <= i < |q.done|
      ensures q.done[i] != []
    {
      assert (first + q.done)[|first| + i] == q.done[i];
    }
  }

  /** Of each socket at most one entry is incomplete, and it is the last one of its socket, whatever was closed. */
  lemma OnlyTheLastIncomplete(calls: seq<Call>, s: int)
    ensures Settled(Of(AfterCalls([], calls), s))
  {
    NothingYet(s);
    var q := Parsed([], calls, s, EMPTY);
  }

  /** Every call keeps at most the last entry of each socket incomplete. */
  lemma CallSettled(list: seq<Entry>, call: Call, t: int)
    requires Settled(Of(list, t))
    ensures Settled(Of(CallStep(list, call).1, t))
  {
    if call.s != t {
      OtherCall(list, call, t);
    } else {
      ReceivedAllSettled(list, t, call.chunks);
      if call.closed {
        CleanedSettled(ReceivedAll(list, t, call.chunks), t, t);
      } else {
        TakenOf(ReceivedAll(list, t, call.chunks), t);
      }
    }
  }

  // -------------------------------------------------------------------- a socket number that is used again

  function TextBytes(ms: seq<Text>): nat {
    if ms == [] then 0 else |ms[0]| + TextBytes(ms[1..])
  }

  /** The bytes of the messages of a parse. */
  function Bytes(q: Parse): nat { TextBytes(q.done) + |q.pending| }

  lemma {:induction false} TextBytesLast(ms: seq<Text>, m: Text)
    ensures TextBytes(ms + [m]) == TextBytes(ms) + |m|
    decreases |ms|
  {
    if ms == [] {
      assert ms + [m] == [m] && [m][1..] == [];
    } else {
      assert (ms + [m])[0] == ms[0] && (ms + [m])[1..] == ms[1..] + [m];
      TextBytesLast(ms[1..], m);
    }
  }

  /** Parsing behind p or behind nothing: the bytes differ by those of p. */
  lemma {:induction false} FeedBytes(p: Parse, q: Parse, d: Text)
    ensures Bytes(Feed(p, d)) - Bytes(p) == Bytes(Feed(q, d)) - Bytes(q)
    decreases |d|
  {
    if d != [] {
      TextBytesLast(p.done, p.pending);
      TextBytesLast(q.done, q.pending);
      FeedBytes(FeedByte(p, d[0]), FeedByte(q, d[0]), d[1..]);
    }
  }

  lemma {:induction false} StripBytes(q: Parse, d: Text)
    ensures Bytes(Feed(q, Strip(d))) == Bytes(Feed(q, d))
    decreases |d|
  {
    if d != [] && d[0] == NUL {
      StripBytes(q, d[1..]);
      TextBytesLast(q.done, q.pending);
      FeedBytes(q, FeedByte(q, NUL), d[1..]);
    }
  }

  lemma {:induction false} HeardBytes(p: Parse, q: Parse, chunks: seq<Text>)
    ensures Bytes(Heard(p, chunks)) - Bytes(p) == Bytes(Feed(q, Concat(chunks))) - Bytes(q)
    decreases |chunks|
  {
    if chunks != [] {
      var d := chunks[0];
      FeedConcat(q, d, Concat(chunks[1..]));
      StripBytes(p, d);
      FeedBytes(p, q, d);
      HeardBytes(Feed(p, Strip(d)), Feed(q, d), chunks[1..]);
    }
  }

  lemma NoBytes(q: Parse)
    requires Filled(q)
    ensures Bytes(q) == 0 <==> q == EMPTY
  {
  }

  /**
   After any calls, socket s is closed, and its number is used again in the calls later. Its new stream
   reaches the caller as it was sent exactly when the close has removed every entry of s, and no read begins
   with the NUL that ends a pending message.
  */
  lemma ReuseDeliversExactly(calls: seq<Call>, close: Call, later: seq<Call>) returns (q': Parse)
    requires close.closed && StaysOpen(later, close.s)
    ensures var s := close.s; var list := CallStep(AfterCalls([], calls), close).1;
            && Of(AfterCalls(list, later), s) == Pieces(q')
            && var received := Parse(Got(list, later, s) + q'.done, q'.pending);
               var asSent := received == Feed(EMPTY, Concat(ChunksOf(later, s)));
               var cleared := Apart(Leading(ReceivedAll(AfterCalls([], calls), s, close.chunks), s), s);
               asSent <==> cleared && CleanCuts(EMPTY, ChunksOf(later, s))
  {
    var s, before := close.s, AfterCalls([], calls);
    NothingYet(s);
    var q := Parsed([], calls, s, EMPTY);
    var left := ClosingCall(before, close, q);
    var list := CallStep(before, close).1;
    CleansExactly(ReceivedAll(before, s, close.chunks), s);
    q' := Conserved(list, later, s, left);
    var chunks := ChunksOf(later, s);
    HeardAsMeantExactly(EMPTY, chunks);
    HeardBytes(left, EMPTY, chunks);
    NoBytes(left);
    EmptyPieces(left);
  }

  lemma EmptyPieces(q: Parse)
    ensures Pieces(q) == [] <==> q == EMPTY
  {
    if Pieces(q) == [] {
      assert |q.done| == 0;
    }
  }
}
