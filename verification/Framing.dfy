/** The byte stream of server/SocketLibrary/smessages.c: messages end in NUL, chunks cut the stream anywhere. */
module Framing {

  newtype byte = x: int | 0 <= x < 256

  const NUL: byte := 0

  type Text = seq<byte>

  predicate Proper(m: Text) { m != [] && NUL !in m }

  ghost predicate AllProper(ms: seq<Text>) {
    forall i :: 0 <= i < |ms| ==> Proper(ms[i])
  }

  /** What send_a_message writes for each of the messages: strlen + 1 bytes. */
  function Encode(ms: seq<Text>): Text {
    if ms == [] then [] else ms[0] + [NUL] + Encode(ms[1..])
  }

  function Concat(chunks: seq<Text>): Text {
    if chunks == [] then [] else chunks[0] + Concat(chunks[1..])
  }

  // -------------------------------------------------------------------- the reference parser

  // The messages that are complete, and the bytes of the one that is not; empty messages are dropped.
  datatype Parse = Parse(done: seq<Text>, pending: Text)

  const EMPTY := Parse([], [])

  function FeedByte(p: Parse, c: byte): Parse {
    if c != NUL then p.(pending := p.pending + [c])
    else if p.pending == [] then p
    else Parse(p.done + [p.pending], [])
  }

  function Feed(p: Parse, d: Text): Parse
    decreases |d|
  {
    if d == [] then p else Feed(FeedByte(p, d[0]), d[1..])
  }

  lemma {:induction false} FeedConcat(p: Parse, a: Text, b: Text)
    ensures Feed(p, a + b) == Feed(Feed(p, a), b)
    decreases |a|
  {
    if a == [] {
      assert a + b == b;
    } else {
      assert (a + b)[0] == a[0] && (a + b)[1..] == a[1..] + b;
      FeedConcat(FeedByte(p, a[0]), a[1..], b);
    }
  }

  lemma FeedLast(p: Parse, d: Text, c: byte)
    ensures Feed(p, d + [c]) == FeedByte(Feed(p, d), c)
  {
    FeedConcat(p, d, [c]);
    assert Feed(Feed(p, d), [c]) == Feed(FeedByte(Feed(p, d), c), []);
  }

  /** Complete messages are never looked at again. */
  lemma {:induction false} FeedBehind(earlier: seq<Text>, p: Parse, d: Text)
    ensures Feed(Parse(earlier + p.done, p.pending), d) == Parse(earlier + Feed(p, d).done, Feed(p, d).pending)
    decreases |d|
  {
    if d != [] {
      var p1 := FeedByte(p, d[0]);
      assert FeedByte(Parse(earlier + p.done, p.pending), d[0]) == Parse(earlier + p1.done, p1.pending) by {
        assert earlier + (p.done + [p.pending]) == earlier + p.done + [p.pending];
      }
      FeedBehind(earlier, p1, d[1..]);
    }
  }

  lemma {:induction false} FeedPlain(p: Parse, d: Text)
    requires NUL !in d
    ensures Feed(p, d) == Parse(p.done, p.pending + d)
    decreases |d|
  {
    if d != [] {
      assert p.pending + [d[0]] + d[1..] == p.pending + d;
      FeedPlain(FeedByte(p, d[0]), d[1..]);
    } else {
      assert p.pending + d == p.pending;
    }
  }

  /** Parsing inverts encoding. */
  lemma {:induction false} ParseEncoded(p: Parse, ms: seq<Text>)
    requires p.pending == [] && AllProper(ms)
    ensures Feed(p, Encode(ms)) == Parse(p.done + ms, [])
    decreases |ms|
  {
    if ms == [] {
      assert p.done + ms == p.done;
    } else {
      FeedConcat(p, ms[0] + [NUL], Encode(ms[1..]));
      FeedLast(p, ms[0], NUL);
      FeedPlain(p, ms[0]);
      assert [] + ms[0] == ms[0];
      ParseEncoded(Parse(p.done + [ms[0]], []), ms[1..]);
      assert p.done + [ms[0]] + ms[1..] == p.done + ms;
    }
  }

  /** Any first part of an encoding parses to the first k messages, and a first part of the next one. */
  lemma {:induction false} ParsePrefix(p: Parse, ms: seq<Text>, d: Text) returns (k: nat)
    requires p.pending == [] && AllProper(ms) && d <= Encode(ms)
    ensures k <= |ms| && Feed(p, d).done == p.done + ms[..k]
    ensures Feed(p, d).pending == [] || (k < |ms| && Feed(p, d).pending <= ms[k])
    decreases |ms|
  {
    if ms == [] || |d| <= |ms[0]| {
      k := 0;
      if ms != [] {
        assert d == Encode(ms)[..|d|] == ms[0][..|d|];
        FeedPlain(p, d);
        assert p.pending + d == d;
      }
      assert p.done + ms[..0] == p.done;
    } else {
      var rest := d[|ms[0]| + 1..];
      var p1 := Parse(p.done + ms[..1], []);
      assert ms[0] + [NUL] == Encode(ms)[..|ms[0]| + 1];
      assert d == ms[0] + [NUL] + rest;
      assert rest <= Encode(ms[1..]) by {
        assert Encode(ms[1..]) == Encode(ms)[|ms[0]| + 1..];
      }
      FeedConcat(p, ms[0] + [NUL], rest);
      FeedLast(p, ms[0], NUL);
      FeedPlain(p, ms[0]);
      assert p.pending + ms[0] == ms[0] && ms[..1] == [ms[0]];
      var j := ParsePrefix(p1, ms[1..], rest);
      k := j + 1;
      assert p1.done + ms[1..][..j] == p.done + ms[..k];
    }
  }

  // -------------------------------------------------------------------- what the reads make of the stream

  /** A read loses the NULs it begins with. */
  function Strip(d: Text): Text {
    if d != [] && d[0] == NUL then Strip(d[1..]) else d
  }

  /** The parse that the library builds: each read without its leading NULs. */
  function Heard(p: Parse, chunks: seq<Text>): Parse
    decreases |chunks|
  {
    if chunks == [] then p else Heard(Feed(p, Strip(chunks[0])), chunks[1..])
  }

  /** The read does not begin with the NUL that ends the pending message. */
  predicate CleanCut(p: Parse, d: Text) {
    p.pending == [] || d == [] || d[0] != NUL
  }

  predicate CleanCuts(p: Parse, chunks: seq<Text>)
    decreases |chunks|
  {
    chunks == [] || (CleanCut(p, chunks[0]) && CleanCuts(Feed(p, chunks[0]), chunks[1..]))
  }

  lemma {:induction false} StripNothingPending(p: Parse, d: Text)
    requires p.pending == []
    ensures Feed(p, Strip(d)) == Feed(p, d)
  {
    if d != [] && d[0] == NUL {
      StripNothingPending(p, d[1..]);
    }
  }

  lemma {:induction false} StripStart(d: Text)
    ensures Strip(d) == [] || Strip(d)[0] != NUL
  {
    if d != [] && d[0] == NUL {
      StripStart(d[1..]);
    }
  }

  /** x has seen more complete messages than y. */
  ghost predicate Ahead(x: Parse, y: Parse) {
    |x.done| > |y.done| && (x.pending != [] ==> y.pending != [])
  }

  lemma {:induction false} StaysAhead(x: Parse, y: Parse, d: Text)
    requires Ahead(x, y) && (d != [] && d[0] == NUL ==> (x.pending == [] <==> y.pending == []))
    ensures Ahead(Feed(x, d), Feed(y, d))
    decreases |d|
  {
    if d != [] {
      StaysAhead(FeedByte(x, d[0]), FeedByte(y, d[0]), d[1..]);
    }
  }

  lemma {:induction false} AheadAfterRead(x: Parse, y: Parse, d: Text)
    requires Ahead(x, y)
    ensures Ahead(Feed(x, d), Feed(y, Strip(d)))
    decreases |d|
  {
    if d != [] && d[0] == NUL {
      AheadAfterRead(FeedByte(x, NUL), y, d[1..]);
    } else {
      StaysAhead(x, y, d);
    }
  }

  lemma {:induction false} AheadForGood(x: Parse, y: Parse, chunks: seq<Text>)
    requires Ahead(x, y)
    ensures Ahead(Feed(x, Concat(chunks)), Heard(y, chunks))
    decreases |chunks|
  {
    if chunks != [] {
      FeedConcat(x, chunks[0], Concat(chunks[1..]));
      AheadAfterRead(x, y, chunks[0]);
      AheadForGood(Feed(x, chunks[0]), Feed(y, Strip(chunks[0])), chunks[1..]);
    }
  }

  /** The cut decides whether the library parses the stream as it was meant, for any number of reads. */
  lemma {:induction false} HeardAsMeantExactly(p: Parse, chunks: seq<Text>)
    ensures Heard(p, chunks) == Feed(p, Concat(chunks)) <==> CleanCuts(p, chunks)
    decreases |chunks|
  {
    if chunks != [] {
      var d := chunks[0];
      FeedConcat(p, d, Concat(chunks[1..]));
      if CleanCut(p, d) {
        if p.pending == [] {
          StripNothingPending(p, d);
        }
        HeardAsMeantExactly(Feed(p, d), chunks[1..]);
      } else {
        AheadAfterRead(FeedByte(p, NUL), p, d[1..]);
        AheadForGood(Feed(p, d), Feed(p, Strip(d)), chunks[1..]);
      }
    }
  }
}
