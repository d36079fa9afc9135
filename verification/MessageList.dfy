/** The operations of server/SocketLibrary/smessages.c on the_list, the list of messages of all sockets. */
module MessageList {
  import opened Prelude
  import opened Framing
  import opened Reassembly
  import opened Cleaning
  import opened Delivery

  /** How many messages are complete, up to the first one that is not. */
  function Ready(v: seq<Piece>): nat {
    if v == [] || !v[0].complete then 0 else 1 + Ready(v[1..])
  }

  /** Of the pieces of a stream, all but a pending last one are ready. */
  lemma {:induction false} ReadyIsDone(q: Parse)
    ensures Ready(Pieces(q)) == |q.done|
    decreases |q.done|
  {
    if q.done != [] {
      PiecesOfSome(q);
      ReadyIsDone(Parse(q.done[1..], q.pending));
    }
  }

  /** None is ready exactly when nothing can be handed out. */
  lemma NoneIsReady(list: seq<Entry>, s: int)
    requires Settled(Of(list, s))
    ensures Ready(Of(list, s)) == 0 <==> Taken(list, s).0 == None
  {
    TakenOf(list, s);
  }

  lemma {:induction false} HandledAllLast(list: seq<Entry>, s: int, xs: seq<Piece>, x: Piece)
    ensures HandledAll(list, s, xs + [x]) == Handled(HandledAll(list, s, xs), s, x)
    decreases |xs|
  {
    if xs == [] {
      assert xs + [x] == [x] && [x][1..] == [];
    } else {
      assert (xs + [x])[0] == xs[0] && (xs + [x])[1..] == xs[1..] + [x];
      HandledAllLast(Handled(list, s, xs[0]), s, xs[1..], x);
    }
  }

  lemma {:induction false} ReceivedAllLast(list: seq<Entry>, s: int, chunks: seq<Text>, chunk: Text)
    ensures ReceivedAll(list, s, chunks + [chunk]) == Received(ReceivedAll(list, s, chunks), s, chunk)
    decreases |chunks|
  {
    if chunks == [] {
      assert chunks + [chunk] == [chunk] && [chunk][1..] == [];
    } else {
      assert (chunks + [chunk])[0] == chunks[0] && (chunks + [chunk])[1..] == chunks[1..] + [chunk];
      ReceivedAllLast(Received(list, s, chunks[0]), s, chunks[1..], chunk);
    }
  }

  /** handle walks over the entries that are not the incomplete one of s. */
  lemma {:induction false} HandledAt(list: seq<Entry>, s: int, x: Piece, i: nat)
    requires i <= |list| && forall j :: 0 <= j < i ==> list[j].s != s || list[j].complete
    ensures Handled(list, s, x) == list[..i] + Handled(list[i..], s, x)
    decreases i
  {
    if i == 0 {
      assert list[0..] == list;
    } else {
      HandledAt(list, s, x, i - 1);
      assert list[i - 1..][1..] == list[i..];
      assert Handled(list[i - 1..], s, x) == [list[i - 1]] + Handled(list[i..], s, x);
      hide Handled;
      assert list[..i - 1] + [list[i - 1]] == list[..i];
    }
  }

  lemma {:induction false} TakenAt(list: seq<Entry>, s: int, i: nat)
    requires i <= |list| && forall j :: 0 <= j < i ==> list[j].s != s || !list[j].complete
    ensures Taken(list, s).0 == Taken(list[i..], s).0 && Taken(list, s).1 == list[..i] + Taken(list[i..], s).1
  {
    if i == 0 {
      assert list[0..] == list;
    } else {
      TakenAt(list[1..], s, i - 1);
      assert list[1..][i - 1..] == list[i..] && [list[0]] + list[1..][..i - 1] == list[..i];
    }
  }

  lemma ReadyStep(list: seq<Entry>, s: int, i: nat)
    requires i < |list|
    ensures list[i].s != s ==> Ready(Of(list[i..], s)) == Ready(Of(list[i + 1..], s))
    ensures list[i].s == s ==>
        Ready(Of(list[i..], s)) == if list[i].complete then 1 + Ready(Of(list[i + 1..], s)) else 0
  {
    assert list[i..][1..] == list[i + 1..];
    var v := Of(list[i + 1..], s);
    assert ([Piece(list[i].message, list[i].complete)] + v)[1..] == v && [] + v == v;
  }

  lemma SweptStep(list: seq<Entry>, s: int, i: nat)
    requires i + 1 < |list|
    ensures var rest := if list[i + 1].s != s then Swept(list[i + 1..], s)
                        else if i + 2 == |list| then [] else Swept(list[i + 2..], s);
            list[..i] + Swept(list[i..], s) == list[..i + 1] + rest
  {
    var rest := if list[i + 1].s != s then Swept(list[i + 1..], s)
                else if i + 2 == |list| then [] else Swept(list[i + 2..], s);
    assert Swept(list[i..], s) == [list[i]] + rest by {
      assert list[i..][1..] == list[i + 1..];
      assert i + 2 < |list| ==> list[i..][2..] == list[i + 2..];
    }
    hide Swept;
    assert list[..i] + ([list[i]] + rest) == list[..i + 1] + rest;
  }

  /**
   What incoming_messages counts: if the entries of s are the parse of a stream, the complete messages of that
   stream; and none exactly when get_next_message has nothing to hand out, if only the last entry is incomplete.
  */
  ghost predicate Counts(list: seq<Entry>, s: int, count: int) {
    && (forall q: Parse :: Of(list, s) == Pieces(q) ==> count == |q.done|)
    && (Settled(Of(list, s)) ==> (count == 0 <==> Taken(list, s).0 == None))
    && 0 <= count <= |Of(list, s)|
    && (forall i :: 0 <= i < count ==> Of(list, s)[i].complete)
    && (count < |Of(list, s)| ==> !Of(list, s)[count].complete)
  }

  lemma {:induction false} ReadyIsFirst(v: seq<Piece>)
    ensures Ready(v) <= |v| && (forall i :: 0 <= i < Ready(v) ==> v[i].complete)
    ensures Ready(v) < |v| ==> !v[Ready(v)].complete
  {
    if v != [] && v[0].complete {
      ReadyIsFirst(v[1..]);
    }
  }

  lemma ReadyCounts(list: seq<Entry>, s: int)
    ensures Counts(list, s, Ready(Of(list, s)))
  {
    forall q: Parse | Of(list, s) == Pieces(q)
      ensures Ready(Of(list, s)) == |q.done|
    {
      ReadyIsDone(q);
    }
    if Settled(Of(list, s)) {
      NoneIsReady(list, s);
    }
    ReadyIsFirst(Of(list, s));
  }

  /**
   For any calls before, of which none closes s: the number that incoming_messages returns is that of the messages
   read on s and not handed out, and that many further calls of get_next_message return exactly those.
  */
  lemma CountsWhatIsWaiting(calls: seq<Call>, s: int, chunks: seq<Text>, count: nat)
    requires StaysOpen(calls, s)
    requires Counts(ReceivedAll(AfterCalls([], calls), s, chunks), s, count)
    ensures var heard := Heard(EMPTY, ChunksOf(calls, s) + chunks).done;
            Got([], calls, s) + Got(ReceivedAll(AfterCalls([], calls), s, chunks), Polls(s, count), s) == heard
            && |Got([], calls, s)| + count == |heard|
  {
    hide Of, Pieces, ReceivedAll, Settled, Taken, Heard, Got, AfterCalls, StaysOpen, Polls;
    NothingYet(s);
    var q := Conserved([], calls, s, EMPTY);
    ReceivedAllOf(AfterCalls([], calls), s, chunks, q);
    var q' := Heard(q, chunks);
    assert [] + q'.done == q'.done;
    HeardOn(EMPTY, ChunksOf(calls, s), Got([], calls, s), q, chunks, [], q');
    assert count == |q'.done|;
    Drain(ReceivedAll(AfterCalls([], calls), s, chunks), s, q');
    assert Got([], calls, s) + [] + q'.done == Got([], calls, s) + q'.done;
  }

  // Its field is the_list; the nodes are in the order of their next pointers.
  class Messages {
    var list: seq<Entry>

    constructor ()
      ensures list == []
    {
      list := [];
    }

    /** strlen, as the index of the NUL. */
    method StringEnd(message: array<byte>, from: nat, ghost nul: nat) returns (e: nat)
      requires from <= nul < message.Length && message[nul] == NUL && NUL !in message[from..nul]
      ensures e == nul
    {
      assert forall j :: from <= j < nul ==> message[j] == message[from..nul][j - from];
      e := from;
      while message[e] != NUL
        invariant from <= e <= nul
        decreases nul - e
      {
        e := e + 1;
      }
    }

    /** handle: the bytes from index from up to the NUL belong to the incomplete message of s, or begin one. */
    method Handle(s: int, message: array<byte>, from: nat, endOfTransmission: int, ghost nul: nat)
      requires from <= nul < message.Length && message[nul] == NUL && NUL !in message[from..nul]
      modifies this
      ensures list == Handled(old(list), s, Piece(message[from..nul], nul <= endOfTransmission))
    {
      var e := StringEnd(message, from, nul);
      var incomplete := e > endOfTransmission;
      ghost var x := Piece(message[from..nul], !incomplete);
      var temp := 0;
      while temp < |list| && !(list[temp].s == s && !list[temp].complete)
        invariant temp <= |list|
        invariant forall j :: 0 <= j < temp ==> list[j].s != s || list[j].complete
      {
        temp := temp + 1;
      }
      HandledAt(list, s, x, temp);
      if temp < |list| {
        assert list[temp..][1..] == list[temp + 1..];
        list := list[temp := Entry(s, list[temp].message + message[from..e], !incomplete)];
      } else {
        list := list + [Entry(s, message[from..e], !incomplete)];
      }
    }

    /** The loop of incoming_messages over one read of result bytes, which ends in a NUL of its own. */
    method SplitRead(s: int, message: array<byte>, result: nat)
      requires 0 < result < message.Length && message[result] == NUL
      modifies this
      ensures list == Received(old(list), s, message[..result])
    {
      var tmp, tmpprev := 0, 0;
      ghost var p := EMPTY;
      while tmp <= result
        invariant tmpprev <= tmp <= result + 1
        invariant tmp <= result ==>
                    p == Feed(EMPTY, message[..tmp]) && p.pending == message[tmpprev..tmp] && NUL !in p.pending
                    && list == HandledAll(old(list), s, Complete(p.done))
        invariant tmp == result + 1 ==> list == Received(old(list), s, message[..result])
      {
        if message[tmp] == NUL && tmp != tmpprev {
          HandledAllLast(old(list), s, Complete(p.done), Piece(p.pending, tmp < result));
          assert Complete(p.done + [p.pending]) == Complete(p.done) + [Piece(p.pending, true)];
          Handle(s, message, tmpprev, result - 1, tmp);
          tmpprev := tmp + 1;
        }
        if tmp == tmpprev && message[tmp] == NUL {
          assert Complete(p.done) == Pieces(p);
          tmpprev := tmpprev + 1;
        }
        if tmp < result {
          FeedLast(EMPTY, message[..tmp], message[tmp]);
          assert message[..tmp + 1] == message[..tmp] + [message[tmp]];
          p := FeedByte(p, message[tmp]);
        }
        tmp := tmp + 1;
      }
    }

    /**
     incoming_messages: chunks are what the reads on s return until nothing is ready; closed says that one
     more read finds the end of the file. Returns the number of complete messages of s, or -1.
    */
    method IncomingMessages(s: int, chunks: seq<Text>, closed: bool) returns (count: int)
      requires forall i :: 0 <= i < |chunks| ==> 0 < |chunks[i]| < MAXBUFF
      modifies this
      ensures closed ==> count == -1 && list == Cleaned(ReceivedAll(old(list), s, chunks), s)
      ensures !closed ==> list == ReceivedAll(old(list), s, chunks) && Counts(list, s, count)
    {
      var message := new byte[MAXBUFF];
      var i := 0;
      while i < |chunks|
        invariant i <= |chunks|
        invariant list == ReceivedAll(old(list), s, chunks[..i])
      {
        var result := |chunks[i]|;
        forall j | 0 <= j < result {
          message[j] := chunks[i][j];
        }
        message[result] := NUL;
        assert message[..result] == chunks[i];
        SplitRead(s, message, result);
        ReceivedAllLast(old(list), s, chunks[..i], chunks[i]);
        assert chunks[..i + 1] == chunks[..i] + [chunks[i]];
        i := i + 1;
      }
      assert chunks[..i] == chunks;
      if closed {
        CleanList(s);
        return -1;
      }
      count := CountReady(s);
    }

    method CountReady(s: int) returns (count: nat)
      ensures Counts(list, s, count)
    {
      ReadyCounts(list, s);
      count := 0;
      var temp := 0;
      while temp < |list|
        invariant temp <= |list|
        invariant count + Ready(Of(list[temp..], s)) == Ready(Of(list, s))
      {
        ReadyStep(list, s, temp);
        if list[temp].s == s {
          if list[temp].complete {
            count := count + 1;
          } else {
            return;
          }
        }
        temp := temp + 1;
      }
    }

    /** get_next_message: what it returns and copies to c. */
    method GetNextMessage(s: int, chunks: seq<Text>, closed: bool) returns (result: int, c: Text)
      requires forall i :: 0 <= i < |chunks| ==> 0 < |chunks[i]| < MAXBUFF
      requires Settled(Of(list, s))
      modifies this
      ensures var (t, rest) := CallStep(old(list), Call(s, chunks, closed));
              && list == rest
              && (match t
                  case Some(m) => result == 1 && c == m
                  case None => result == (if closed then -1 else 0) && c == [])
      ensures forall t :: Settled(Of(old(list), t)) ==> Settled(Of(list, t))
    {
      forall t | Settled(Of(list, t))
        ensures Settled(Of(CallStep(list, Call(s, chunks, closed)).1, t))
      {
        CallSettled(list, Call(s, chunks, closed), t);
      }
      c := [];
      result := IncomingMessages(s, chunks, closed);
      if result <= 0 {
        if !closed {
          ReceivedAllSettled(old(list), s, chunks);
          TakenOf(list, s);
        }
        return;
      }
      var temp := 0;
      while temp < |list|
        invariant temp <= |list| && list == ReceivedAll(old(list), s, chunks)
        invariant forall j :: 0 <= j < temp ==> list[j].s != s || !list[j].complete
      {
        if list[temp].s == s && list[temp].complete {
          TakenAt(list, s, temp);
          assert list[temp..][1..] == list[temp + 1..];
          c := list[temp].message;
          list := list[..temp] + list[temp + 1..];
          return 1, c;
        }
        temp := temp + 1;
      }
      TakenAt(list, s, temp);
      return 0, c;
    }

    /** clean_list */
    method CleanList(s: int)
      modifies this
      ensures list == Cleaned(old(list), s)
    {
      if list == [] {
        return;
      }
      while list[0].s == s
        invariant list != [] && Leading(list, s) == Leading(old(list), s)
        decreases |list|
      {
        list := list[1..];
        if list == [] {
          return;
        }
      }
      ghost var was := list;
      var temp := 0;
      while temp + 1 < |list|
        invariant temp < |list| && list[..temp] + Swept(list[temp..], s) == Swept(was, s)
        decreases |list| - temp
      {
        SweptStep(list, s, temp);
        temp := temp + 1;
        if list[temp].s == s {
          ghost var before := list;
          list := list[..temp] + list[temp + 1..];
          assert list[..temp] == before[..temp] && list[temp..] == before[temp + 1..];
          if temp == |list| {
            return;
          }
        }
      }
    }
  }
}
