/** clean_list of server/SocketLibrary/smessages.c, which looks past the node after each one it unlinks. */
module Cleaning {
  import opened Framing
  import opened Reassembly

  /** The second loop, with its cursor at the first entry: that one stays, whatever its socket. */
  function Swept(list: seq<Entry>, s: int): (r: seq<Entry>)
    requires list != []
    ensures r != [] && r[0] == list[0]
  {
    if |list| == 1 then list
    else if list[1].s != s then [list[0]] + Swept(list[1..], s)
    else if |list| == 2 then [list[0]]
    else [list[0]] + Swept(list[2..], s)
  }

  function Leading(list: seq<Entry>, s: int): seq<Entry> {
    if list != [] && list[0].s == s then Leading(list[1..], s) else list
  }

  function Cleaned(list: seq<Entry>, s: int): seq<Entry> {
    var rest := Leading(list, s);
    if rest == [] then [] else Swept(rest, s)
  }

  /** No two entries of s are next to each other. */
  ghost predicate Apart(list: seq<Entry>, s: int) {
    forall i :: 0 <= i < |list| - 1 ==> list[i].s != s || list[i + 1].s != s
  }

  lemma {:induction false} LeadingDrops(list: seq<Entry>, s: int)
    ensures Leading(list, s) == [] || Leading(list, s)[0].s != s
    ensures forall t :: t != s ==> Of(Leading(list, s), t) == Of(list, t)
  {
    if list != [] && list[0].s == s {
      LeadingDrops(list[1..], s);
    }
  }

  lemma {:induction false} SweptClearsExactly(list: seq<Entry>, s: int)
    requires list != [] && list[0].s != s
    ensures Of(Swept(list, s), s) == [] <==> Apart(list, s)
    decreases |list|
  {
    var r := Swept(list, s);
    if |list| > 1 {
      if list[1].s != s {
        assert r[1..] == Swept(list[1..], s);
        SweptClearsExactly(list[1..], s);
        assert Apart(list[1..], s) <==> Apart(list, s) by {
          assert forall i :: 0 <= i < |list| - 1 ==> list[1..][i] == list[i + 1];
        }
      } else if |list| > 2 {
        assert r[1..] == Swept(list[2..], s);
        if list[2].s == s {
          assert Of(r[1..], s) != [];
        } else {
          SweptClearsExactly(list[2..], s);
          assert Apart(list[2..], s) <==> Apart(list, s) by {
            assert forall i :: 0 <= i < |list| - 2 ==> list[2..][i] == list[i + 2];
          }
        }
      }
    }
  }

  /**
   Cleaning for s removes every entry of s exactly when, behind the leading entries of s, no two entries of
   s are next to each other.
  */
  lemma CleansExactly(list: seq<Entry>, s: int)
    ensures Of(Cleaned(list, s), s) == [] <==> Apart(Leading(list, s), s)
  {
    LeadingDrops(list, s);
    if Leading(list, s) != [] {
      SweptClearsExactly(Leading(list, s), s);
    }
  }

  /** Two messages of s behind one of another socket: the second one survives. */
  lemma OneIsLeft(s: int, t: int, a: Text, b: Text, c: Text)
    requires s != t
    ensures var list := [Entry(t, a, true), Entry(s, b, true), Entry(s, c, true)];
            Cleaned(list, s) == [Entry(t, a, true), Entry(s, c, true)]
  {
    var list := [Entry(t, a, true), Entry(s, b, true), Entry(s, c, true)];
    assert list[2..] == [list[2]];
    assert Swept([list[2]], s) == [list[2]];
  }

  lemma {:induction false} SweptOther(list: seq<Entry>, s: int, t: int)
    requires list != [] && t != s
    ensures Of(Swept(list, s), t) == Of(list, t)
    decreases |list|
  {
    var r := Swept(list, s);
    if |list| > 1 {
      if list[1].s != s {
        assert r[1..] == Swept(list[1..], s);
        SweptOther(list[1..], s, t);
      } else {
        assert list[1..][1..] == list[2..];
        if |list| > 2 {
          assert r[1..] == Swept(list[2..], s);
          SweptOther(list[2..], s, t);
        }
      }
    }
  }

  /** Cleaning for s leaves the entries of every other socket alone. */
  lemma CleanedOther(list: seq<Entry>, s: int, t: int)
    requires t != s
    ensures Of(Cleaned(list, s), t) == Of(list, t)
  {
    LeadingDrops(list, s);
    if Leading(list, s) != [] {
      SweptOther(Leading(list, s), s, t);
    }
  }

  /** What is left of s is some of what was there, with at most its last entry incomplete. */
  lemma {:induction false} SweptSettled(list: seq<Entry>, s: int)
    requires list != [] && Settled(Of(list, s))
    ensures Settled(Of(Swept(list, s), s)) && |Of(Swept(list, s), s)| <= |Of(list, s)|
    ensures forall x :: x in Of(Swept(list, s), s) ==> x in Of(list, s)
    decreases |list|
  {
    var r := Swept(list, s);
    TailSettled(list, s);
    if |list| > 1 {
      if list[1].s != s {
        assert r[1..] == Swept(list[1..], s);
        SweptSettled(list[1..], s);
      } else {
        TailSettled(list[1..], s);
        assert list[1..][1..] == list[2..];
        if |list| > 2 {
          assert r[1..] == Swept(list[2..], s);
          SweptSettled(list[2..], s);
        }
      }
    }
  }

  lemma {:induction false} LeadingSettled(list: seq<Entry>, s: int)
    requires Settled(Of(list, s))
    ensures Settled(Of(Leading(list, s), s))
    ensures forall x :: x in Of(Leading(list, s), s) ==> x in Of(list, s)
  {
    if list != [] && list[0].s == s {
      TailSettled(list, s);
      LeadingSettled(list[1..], s);
    }
  }

  /** Cleaning for s, or for another socket, leaves at most the last entry of a socket incomplete. */
  lemma CleanedSettled(list: seq<Entry>, s: int, t: int)
    requires Settled(Of(list, t))
    ensures Settled(Of(Cleaned(list, s), t))
    ensures forall x :: x in Of(Cleaned(list, s), t) ==> x in Of(list, t)
  {
    if s == t {
      LeadingSettled(list, s);
      if Leading(list, s) != [] {
        SweptSettled(Leading(list, s), s);
      }
    } else {
      CleanedOther(list, s, t);
    }
  }
}
