/** The list of messages of server/SocketLibrary/smessages.c, as a value, and what its operations do to it. */
module Reassembly {
  import opened Prelude
  import opened Framing

  const MAXBUFF: nat := 2056

  // mess_list_el
  datatype Entry = Entry(s: int, message: Text, complete: bool)

  // A part of a read, from one NUL to the next; complete when the NUL was read and not put there.
  datatype Piece = Piece(text: Text, complete: bool)

  // -------------------------------------------------------------------- one socket's share of the list

  function Of(list: seq<Entry>, s: int): seq<Piece> {
    if list == [] then []
    else (if list[0].s == s then [Piece(list[0].message, list[0].complete)] else []) + Of(list[1..], s)
  }

  function Complete(done: seq<Text>): (v: seq<Piece>)
    ensures |v| == |done|
  {
    seq(|done|, i requires 0 <= i < |done| => Piece(done[i], true))
  }

  /** The pieces of a parse: every message that is complete, and the pending one when there is one. */
  function Pieces(p: Parse): seq<Piece> {
    Complete(p.done) + if p.pending == [] then [] else [Piece(p.pending, false)]
  }

  /** Only the last piece may be incomplete. */
  ghost predicate Settled(v: seq<Piece>) {
    forall i :: 0 <= i < |v| - 1 ==> v[i].complete
  }

  // -------------------------------------------------------------------- the operations on the list

  /** handle: completes or extends the incomplete entry of s, or appends an entry. */
  function Handled(list: seq<Entry>, s: int, x: Piece): seq<Entry> {
    if list == [] then [Entry(s, x.text, x.complete)]
    else if list[0].s == s && !list[0].complete then [Entry(s, list[0].message + x.text, x.complete)] + list[1..]
    else [list[0]] + Handled(list[1..], s, x)
  }

  function HandledAll(list: seq<Entry>, s: int, xs: seq<Piece>): seq<Entry>
    decreases |xs|
  {
    if xs == [] then list else HandledAll(Handled(list, s, xs[0]), s, xs[1..])
  }

  /** One read on socket s. */
  function Received(list: seq<Entry>, s: int, chunk: Text): seq<Entry> {
    HandledAll(list, s, Pieces(Feed(EMPTY, chunk)))
  }

  function ReceivedAll(list: seq<Entry>, s: int, chunks: seq<Text>): seq<Entry>
    decreases |chunks|
  {
    if chunks == [] then list else ReceivedAll(Received(list, s, chunks[0]), s, chunks[1..])
  }

  /** get_next_message behind its reads: the first complete message of s, and the list without it. */
  function Taken(list: seq<Entry>, s: int): (Option<Text>, seq<Entry>) {
    if list == [] then (None, [])
    else if list[0].s == s && list[0].complete then (Some(list[0].message), list[1..])
    else var (c, rest) := Taken(list[1..], s); (c, [list[0]] + rest)
  }

  // -------------------------------------------------------------------- what handle does to a socket's share

  function Absorb(v: seq<Piece>, x: Piece): seq<Piece> {
    if v != [] && !v[|v| - 1].complete
    then v[..|v| - 1] + [Piece(v[|v| - 1].text + x.text, x.complete)]
    else v + [x]
  }

  function AbsorbAll(v: seq<Piece>, xs: seq<Piece>): seq<Piece>
    decreases |xs|
  {
    if xs == [] then v else AbsorbAll(Absorb(v, xs[0]), xs[1..])
  }

  lemma TailSettled(list: seq<Entry>, s: int)
    requires list != [] && Settled(Of(list, s))
    ensures Settled(Of(list[1..], s))
    ensures list[0].s == s && !list[0].complete ==> Of(list[1..], s) == []
  {
    var v := Of(list[1..], s);
    assert forall i :: 0 <= i < |v| ==> v[i] == Of(list, s)[if list[0].s == s then i + 1 else i];
    assert list[0].s == s ==> Of(list, s)[0].complete == list[0].complete;
  }

  lemma AbsorbBehind(p: Piece, v: seq<Piece>, x: Piece)
    requires v != [] || p.complete
    ensures Absorb([p] + v, x) == [p] + Absorb(v, x)
  {
    if v != [] {
      assert ([p] + v)[..|v|] == [p] + v[..|v| - 1];
    }
  }

  lemma {:induction false} HandledOf(list: seq<Entry>, s: int, x: Piece)
    requires Settled(Of(list, s))
    ensures Of(Handled(list, s, x), s) == Absorb(Of(list, s), x)
  {
    if list == [] {
      assert Handled(list, s, x)[1..] == [];
    } else {
      TailSettled(list, s);
      var p := Piece(list[0].message, list[0].complete);
      var v := Of(list[1..], s);
      hide Settled;
      if list[0].s == s && !list[0].complete {
        assert Handled(list, s, x)[1..] == list[1..];
        assert Absorb([p], x) == [Piece(p.text + x.text, x.complete)];
        assert [p] + v == [p] && [Piece(p.text + x.text, x.complete)] + v == [Piece(p.text + x.text, x.complete)];
      } else {
        assert Handled(list, s, x)[1..] == Handled(list[1..], s, x);
        HandledOf(list[1..], s, x);
        if list[0].s == s {
          AbsorbBehind(p, v, x);
        }
        hide Absorb;
      }
    }
  }

  lemma AbsorbSettled(v: seq<Piece>, x: Piece)
    requires Settled(v)
    ensures Settled(Absorb(v, x))
  {
  }

  /** Handling a piece for one socket leaves the entries of every other socket alone. */
  lemma {:induction false} HandledOther(list: seq<Entry>, s: int, x: Piece, t: int)
    requires t != s
    ensures Of(Handled(list, s, x), t) == Of(list, t)
  {
    if list == [] {
      assert Handled(list, s, x)[1..] == [];
    } else if list[0].s == s && !list[0].complete {
      assert Handled(list, s, x)[1..] == list[1..];
    } else {
      assert Handled(list, s, x)[1..] == Handled(list[1..], s, x);
      HandledOther(list[1..], s, x, t);
    }
  }

  lemma {:induction false} HandledAllOther(list: seq<Entry>, s: int, xs: seq<Piece>, t: int)
    requires t != s
    ensures Of(HandledAll(list, s, xs), t) == Of(list, t)
    decreases |xs|
  {
    if xs != [] {
      HandledOther(list, s, xs[0], t);
      HandledAllOther(Handled(list, s, xs[0]), s, xs[1..], t);
    }
  }

  lemma {:induction false} HandledAllOf(list: seq<Entry>, s: int, xs: seq<Piece>)
    requires Settled(Of(list, s))
    ensures Of(HandledAll(list, s, xs), s) == AbsorbAll(Of(list, s), xs)
    ensures Settled(Of(HandledAll(list, s, xs), s))
    decreases |xs|
  {
    if xs != [] {
      HandledOf(list, s, xs[0]);
      AbsorbSettled(Of(list, s), xs[0]);
      HandledAllOf(Handled(list, s, xs[0]), s, xs[1..]);
    }
  }

  // -------------------------------------------------------------------- reads, one after the other

  /** The parse q, continued by the parse r of a read of its own. */
  function Merge(q: Parse, r: Parse): Parse {
    if r.done == [] then Parse(q.done, q.pending + r.pending)
    else Parse(q.done + [q.pending + r.done[0]] + r.done[1..], r.pending)
  }

  lemma {:induction false} FeedMerge(q: Parse, e: Parse, d: Text)
    requires e != EMPTY || q.pending == [] || d == [] || d[0] != NUL
    ensures Feed(Merge(q, e), d) == Merge(q, Feed(e, d))
    decreases |d|
  {
    if d != [] {
      assert FeedByte(Merge(q, e), d[0]) == Merge(q, FeedByte(e, d[0])) by {
        if d[0] != NUL {
          assert q.pending + (e.pending + [d[0]]) == q.pending + e.pending + [d[0]];
        } else if e.pending != [] && e.done != [] {
          assert (e.done + [e.pending])[1..] == e.done[1..] + [e.pending];
          assert q.done + [q.pending + e.done[0]] + (e.done[1..] + [e.pending]) == Merge(q, e).done + [e.pending];
        } else {
          assert [e.pending][1..] == [];
        }
      }
      FeedMerge(q, FeedByte(e, d[0]), d[1..]);
    }
  }

  lemma {:induction false} AbsorbFresh(v: seq<Piece>, xs: seq<Piece>)
    requires (v == [] || v[|v| - 1].complete) && Settled(xs)
    ensures AbsorbAll(v, xs) == v + xs
    decreases |xs|
  {
    if xs == [] {
      assert v + xs == v;
    } else if |xs| == 1 {
      assert AbsorbAll(Absorb(v, xs[0]), []) == v + xs;
    } else {
      assert forall i :: 0 <= i < |xs[1..]| ==> xs[1..][i] == xs[i + 1];
      AbsorbFresh(v + [xs[0]], xs[1..]);
      assert v + [xs[0]] + xs[1..] == v + xs;
    }
  }

  lemma AbsorbOne(q: Parse, x: Piece)
    ensures Absorb(Pieces(q), x) == Complete(q.done) + [Piece(q.pending + x.text, x.complete)]
    ensures x.complete ==> Absorb(Pieces(q), x) == Pieces(Parse(q.done + [q.pending + x.text], []))
  {
    assert q.pending == [] ==> q.pending + x.text == x.text;
    assert Complete(q.done + [q.pending + x.text]) == Complete(q.done) + [Piece(q.pending + x.text, true)];
  }

  /** Behind the first piece of a read everything is new. */
  lemma AbsorbMore(v: seq<Piece>, xs: seq<Piece>)
    requires xs != [] && Settled(xs)
    ensures AbsorbAll(v, xs) == Absorb(v, xs[0]) + xs[1..]
  {
    if |xs| == 1 {
      assert AbsorbAll(Absorb(v, xs[0]), []) == Absorb(v, xs[0]) + xs[1..];
    } else {
      assert forall i :: 0 <= i < |xs[1..]| ==> xs[1..][i] == xs[i + 1];
      AbsorbFresh(Absorb(v, xs[0]), xs[1..]);
    }
  }

  lemma MergeNone(q: Parse, r: Parse)
    requires r.done == []
    ensures AbsorbAll(Pieces(q), Pieces(r)) == Pieces(Merge(q, r))
  {
    var xs := Pieces(r);
    if r.pending == [] {
      assert xs == [] && q.pending + r.pending == q.pending;
    } else {
      assert xs == [Piece(r.pending, false)];
      AbsorbOne(q, xs[0]);
      AbsorbMore(Pieces(q), xs);
      hide Absorb, AbsorbAll, Complete;
    }
  }

  lemma PiecesOfSome(r: Parse)
    requires r.done != []
    ensures Pieces(r) != [] && Pieces(r)[0] == Piece(r.done[0], true)
    ensures Pieces(r)[1..] == Pieces(Parse(r.done[1..], r.pending))
  {
  }

  lemma PiecesBehind(done: seq<Text>, more: Parse)
    ensures Complete(done) + Pieces(more) == Pieces(Parse(done + more.done, more.pending))
  {
    assert Complete(done) + Complete(more.done) == Complete(done + more.done);
    var open := if more.pending == [] then [] else [Piece(more.pending, false)];
    hide Complete;
    assert Complete(done) + (Complete(more.done) + open) == Complete(done) + Complete(more.done) + open;
  }

  lemma MergeSome(q: Parse, r: Parse)
    requires r.done != []
    ensures AbsorbAll(Pieces(q), Pieces(r)) == Pieces(Merge(q, r))
  {
    PiecesOfSome(r);
    AbsorbOne(q, Piece(r.done[0], true));
    AbsorbMore(Pieces(q), Pieces(r));
    var done := q.done + [q.pending + r.done[0]];
    assert Pieces(Parse(done, [])) == Complete(done);
    PiecesBehind(done, Parse(r.done[1..], r.pending));
    hide Absorb, AbsorbAll, Complete, Pieces;
  }

  /** Handling the pieces of a read one by one merges its parse with what the socket has so far. */
  lemma AbsorbMerge(q: Parse, r: Parse)
    ensures AbsorbAll(Pieces(q), Pieces(r)) == Pieces(Merge(q, r))
  {
    if r.done == [] {
      MergeNone(q, r);
    } else {
      MergeSome(q, r);
    }
  }

  /** A read continues the parse of the stream of its socket, except for the NULs it begins with. */
  lemma ReceivedOf(list: seq<Entry>, s: int, chunk: Text, q: Parse)
    requires Of(list, s) == Pieces(q)
    ensures Of(Received(list, s, chunk), s) == Pieces(Feed(q, Strip(chunk)))
  {
    HandledAllOf(list, s, Pieces(Feed(EMPTY, chunk)));
    AbsorbMerge(q, Feed(EMPTY, chunk));
    StripNothingPending(EMPTY, chunk);
    StripStart(chunk);
    FeedMerge(q, EMPTY, Strip(chunk));
    assert Merge(q, EMPTY) == q by {
      assert q.pending + [] == q.pending;
    }
  }

  lemma {:induction false} ReceivedAllOf(list: seq<Entry>, s: int, chunks: seq<Text>, q: Parse)
    requires Of(list, s) == Pieces(q)
    ensures Of(ReceivedAll(list, s, chunks), s) == Pieces(Heard(q, chunks))
    decreases |chunks|
  {
    if chunks != [] {
      ReceivedOf(list, s, chunks[0], q);
      ReceivedAllOf(Received(list, s, chunks[0]), s, chunks[1..], Feed(q, Strip(chunks[0])));
    }
  }

  lemma {:induction false} ReceivedAllSettled(list: seq<Entry>, s: int, chunks: seq<Text>)
    requires Settled(Of(list, s))
    ensures Settled(Of(ReceivedAll(list, s, chunks), s))
    decreases |chunks|
  {
    if chunks != [] {
      HandledAllOf(list, s, Pieces(Feed(EMPTY, chunks[0])));
      ReceivedAllSettled(Received(list, s, chunks[0]), s, chunks[1..]);
    }
  }

  lemma {:induction false} ReceivedAllOther(list: seq<Entry>, s: int, chunks: seq<Text>, t: int)
    requires t != s
    ensures Of(ReceivedAll(list, s, chunks), t) == Of(list, t)
    decreases |chunks|
  {
    if chunks != [] {
      HandledAllOther(list, s, Pieces(Feed(EMPTY, chunks[0])), t);
      ReceivedAllOther(Received(list, s, chunks[0]), s, chunks[1..], t);
    }
  }

  // -------------------------------------------------------------------- taking a message

  /** What is taken for s is the first complete message of s, and only that leaves the list. */
  lemma {:induction false} TakenOf(list: seq<Entry>, s: int)
    requires Settled(Of(list, s))
    ensures var v := Of(list, s);
            if v == [] || !v[0].complete then Taken(list, s) == (None, list)
            else Taken(list, s).0 == Some(v[0].text) && Of(Taken(list, s).1, s) == v[1..]
  {
    if list != [] && !(list[0].s == s && list[0].complete) {
      TailSettled(list, s);
      TakenOf(list[1..], s);
      assert list == [list[0]] + list[1..];
      assert Taken(list, s).1[1..] == Taken(list[1..], s).1;
    }
  }

  function Handed(c: Option<Text>): seq<Text> {
    if c.Some? then [c.value] else []
  }

  /** In terms of parses: the first complete message is handed out, when there is one. */
  lemma TakenView(list: seq<Entry>, s: int, q: Parse) returns (q': Parse)
    requires Of(list, s) == Pieces(q)
    ensures Of(Taken(list, s).1, s) == Pieces(q') && q == Parse(Handed(Taken(list, s).0) + q'.done, q'.pending)
    ensures Taken(list, s).0 == None ==> q.done == []
  {
    TakenOf(list, s);
    hide Of, Taken, Settled;
    if q.done == [] {
      q' := q;
    } else {
      q' := Parse(q.done[1..], q.pending);
      assert Pieces(q)[0] == Piece(q.done[0], true);
      assert Pieces(q)[1..] == Pieces(q');
    }
  }

  lemma {:induction false} TakenOther(list: seq<Entry>, s: int, t: int)
    requires t != s
    ensures Of(Taken(list, s).1, t) == Of(list, t)
  {
    if list != [] && !(list[0].s == s && list[0].complete) {
      TakenOther(list[1..], s, t);
      assert Taken(list, s).1[1..] == Taken(list[1..], s).1;
    }
  }
}
