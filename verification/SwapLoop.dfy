/** The nested swap loops of process_request in server/server.c, for any buffer size and any number of rounds. */
module SwapLoop {

  const REQUEST_SIZE: nat := 10
  const RESPONSE_SIZE: nat := 10
  const NUM_LOOPS: nat := 500000

  /** Where the byte at k comes from: the first one stays, the others are rotated among themselves. */
  function Source(k: nat, rounds: nat, n: nat): (i: nat)
    requires k < n && n >= 2
    ensures i < n
  {
    if k == 0 then 0 else 1 + (k - 1 + rounds) % (n - 1)
  }

  function Rotated(r: seq<char>, rounds: nat): (out: seq<char>)
    requires |r| >= 2
    ensures |out| == |r|
  {
    seq(|r|, k requires 0 <= k < |r| => r[Source(k, rounds, |r|)])
  }

  /** The request, repeated until the response is full. */
  function Filled(request: seq<char>, size: nat): (out: seq<char>)
    requires request != []
    ensures |out| == size
  {
    seq(size, i requires 0 <= i < size => request[i % |request|])
  }

  // -------------------------------------------------------------------- remainders

  lemma RemainderIs(x: int, m: int, q: int, b: int)
    requires m > 0 && x == m * q + b && 0 <= b < m
    ensures x % m == b
  {
    var d := x / m - q;
    assert m * d == b - x % m;
    assert d >= 1 ==> m * d >= m;
    assert d <= -1 ==> m * d <= -m;
  }

  lemma RemainderOfSum(x: nat, y: nat, m: nat)
    requires m > 0
    ensures (x + y % m) % m == (x + y) % m
  {
    var q, q' := y / m, (x + y % m) / m;
    assert x + y == m * (q + q') + (x + y % m) % m by {
      assert m * (q + q') == m * q + m * q';
    }
    RemainderIs(x + y, m, q + q', (x + y % m) % m);
  }

  lemma NextIndex(i: nat, n: nat)
    requires i < n
    ensures (i + 1) % n == if i + 1 < n then i + 1 else 0
  {
    RemainderIs(i + 1, n, if i + 1 < n then 0 else 1, if i + 1 < n then i + 1 else 0);
  }

  // -------------------------------------------------------------------- rotations

  lemma SourceTwice(k: nat, j: nat, n: nat)
    requires k < n && n >= 2
    ensures Source(Source(k, 1, n), j, n) == Source(k, j + 1, n)
  {
    if k > 0 {
      RemainderOfSum(j, k, n - 1);
    }
  }

  lemma OneMoreRound(r: seq<char>, j: nat)
    requires |r| >= 2
    ensures Rotated(Rotated(r, j), 1) == Rotated(r, j + 1)
  {
    hide Source;
    forall k | 0 <= k < |r|
      ensures Rotated(Rotated(r, j), 1)[k] == Rotated(r, j + 1)[k]
    {
      SourceTwice(k, j, |r|);
    }
  }

  lemma NoRound(r: seq<char>)
    requires |r| >= 2
    ensures Rotated(r, 0) == r
  {
    forall k | 0 <= k < |r|
      ensures Source(k, 0, |r|) == k
    {
      if k > 0 {
        RemainderIs(k - 1, |r| - 1, 0, k - 1);
      }
    }
    hide Source;
  }

  /** Only the remainder of the number of rounds by size - 1 counts. */
  lemma OnlyTheRemainderCounts(r: seq<char>, rounds: nat)
    requires |r| >= 2
    ensures Rotated(r, rounds) == Rotated(r, rounds % (|r| - 1))
  {
    var n := |r|;
    var few := rounds % (n - 1);
    forall k | 0 <= k < n
      ensures Source(k, rounds, n) == Source(k, few, n)
    {
      if k > 0 {
        RemainderOfSum(k - 1, rounds, n - 1);
      }
    }
    hide Source;
  }

  lemma OneRound(r: seq<char>)
    requires |r| >= 2
    ensures Rotated(r, 1) == [r[0]] + r[2..] + [r[1]]
  {
    var n := |r|;
    forall k | 0 <= k < n
      ensures Source(k, 1, n) == if k == 0 then 0 else if k < n - 1 then k + 1 else 1
    {
      if k > 0 {
        NextIndex(k - 1, n - 1);
      }
    }
    hide Source;
  }

  /** No byte is lost. */
  lemma {:induction false} RotationPermutes(r: seq<char>, rounds: nat)
    requires |r| >= 2
    ensures multiset(Rotated(r, rounds)) == multiset(r)
    decreases rounds
  {
    if rounds == 0 {
      NoRound(r);
    } else {
      var before := Rotated(r, rounds - 1);
      RotationPermutes(r, rounds - 1);
      OneMoreRound(r, rounds - 1);
      OneRound(before);
      hide Rotated;
      assert before == [before[0]] + [before[1]] + before[2..];
    }
  }

  /** Size - 1 rounds, and every multiple of that, do nothing. */
  lemma FullTurnsDoNothing(r: seq<char>, rounds: nat)
    requires |r| >= 2 && rounds % (|r| - 1) == 0
    ensures Rotated(r, rounds) == r
  {
    OnlyTheRemainderCounts(r, rounds);
    NoRound(r);
  }

  /** The server's numbers: the first byte stays and the last nine are rotated by five. */
  lemma ServerResponse(request: seq<char>)
    requires |request| == REQUEST_SIZE
    ensures var out := Rotated(Filled(request, RESPONSE_SIZE), NUM_LOOPS);
            out == [request[0]] + request[6..] + request[1..6]
  {
    assert Filled(request, RESPONSE_SIZE) == request;
    OnlyTheRemainderCounts(request, NUM_LOOPS);
    forall k: nat | k < 10
      ensures Source(k, 5, 10) == if k == 0 then 0 else if k < 5 then k + 5 else k - 4
    {
    }
    hide Source;
  }

  // -------------------------------------------------------------------- the loops

  /** The inner loop: the byte at 0 is carried to the end, and from there back to 0. */
  method Round(response: array<char>)
    requires response.Length >= 2
    modifies response
    ensures response[..] == Rotated(old(response[..]), 1)
  {
    var n := response.Length;
    ghost var was := response[..];
    for i := 0 to n
      invariant i < n ==>
                  && (forall j :: 0 <= j < i ==> response[j] == was[j + 1]) && response[i] == was[0]
                  && (forall j :: i < j < n ==> response[j] == was[j])
      invariant i == n ==>
                  && response[0] == was[0] && response[n - 1] == was[1]
                  && (forall j :: 1 <= j < n - 1 ==> response[j] == was[j + 1])
    {
      NextIndex(i, n);
      var swap := response[(i + 1) % n];
      response[(i + 1) % n] := response[i];
      response[i] := swap;
    }
    OneRound(was);
  }

  /** process_request, with the sizes and the number of rounds as parameters. */
  method ProcessRequest(request: array<char>, size: nat, rounds: nat) returns (response: array<char>)
    requires request.Length > 0 && size >= 2
    ensures response[..] == Rotated(Filled(request[..], size), rounds)
  {
    response := new char[size];
    for i := 0 to size
      invariant forall k :: 0 <= k < i ==> response[k] == request[k % request.Length]
    {
      response[i] := request[i % request.Length];
    }
    ghost var filled := Filled(request[..], size);
    assert response[..] == filled;
    NoRound(filled);
    for j := 0 to rounds
      invariant response[..] == Rotated(filled, j)
    {
      OneMoreRound(filled, j);
      Round(response);
    }
  }
}
