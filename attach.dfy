/** The list of magnets attached to a box or a player body
    (Assets/Scripts/Network/MagnetAttachPoint.cs). The class is generic in the element
    type so that the magnet module can refer to it; it is used as AttachPoint<Magnet>. */
module AttachPoints {

  predicate NoDuplicates<T(==)>(s: seq<T>) {
    forall i, j :: 0 <= i < j < |s| ==> s[i] != s[j]
  }

  /** List.Contains followed by List.Add when absent. */
  function Registered<T(==)>(s: seq<T>, m: T): (r: seq<T>)
    ensures m in r
    ensures NoDuplicates(s) ==> NoDuplicates(r)
    ensures m !in s ==> r == s + [m]
    ensures m in s ==> r == s
  {
    if m in s then s else s + [m]
  }

  /** List.Remove: drops the first occurrence of `m`, if any. */
  function Removed<T(==)>(s: seq<T>, m: T): (r: seq<T>)
    decreases |s|
  {
    if |s| == 0 then s
    else if s[0] == m then s[1..]
    else [s[0]] + Removed(s[1..], m)
  }

  /** Removing splits the list at the first occurrence of `m` and keeps everything else
      in order; removing an absent element changes nothing. */
  lemma {:induction false} RemovedSplits<T>(s: seq<T>, m: T)
    ensures m !in s ==> Removed(s, m) == s
    ensures m in s ==> exists i :: 0 <= i < |s| && s[i] == m && m !in s[..i]
                                   && Removed(s, m) == s[..i] + s[i + 1..]
    decreases |s|
  {
    if |s| > 0 && s[0] != m {
      RemovedSplits(s[1..], m);
      if m in s {
        assert m in s[1..];
        var i :| 0 <= i < |s[1..]| && s[1..][i] == m && m !in s[1..][..i]
                 && Removed(s[1..], m) == s[1..][..i] + s[1..][i + 1..];
        FirstPastHead(s, m, i);
        RemovedPastHead(s, m, i);
      }
    } else if |s| > 0 {
      assert s[..0] == [];
    }
  }

  /** The first occurrence in the tail at `i` is the first in the list at `i + 1` when the
      head is not `m`. */
  lemma FirstPastHead<T>(s: seq<T>, m: T, i: nat)
    requires |s| > 0 && s[0] != m && i < |s| - 1
    requires s[1..][i] == m && m !in s[1..][..i]
    ensures s[i + 1] == m && m !in s[..i + 1]
  {
    assert s[..i + 1] == [s[0]] + s[1..][..i];
  }

  /** A removal that splits the tail at `i` splits the list at `i + 1` when the head is
      not `m`. */
  lemma RemovedPastHead<T>(s: seq<T>, m: T, i: nat)
    requires |s| > 0 && s[0] != m && i < |s| - 1
    requires Removed(s[1..], m) == s[1..][..i] + s[1..][i + 1..]
    ensures Removed(s, m) == s[..i + 1] + s[i + 2..]
  {
    var t := s[1..];
    var front, back := t[..i], t[i + 1..];
    assert Removed(s, m) == [s[0]] + Removed(t, m);
    assert s[..i + 1] == [s[0]] + front;
    assert s[i + 2..] == back;
    assert [s[0]] + (front + back) == ([s[0]] + front) + back;
  }

  /** Taking out one entry of a duplicate-free list leaves it duplicate-free and without
      that entry. */
  lemma DropOneNoDuplicates<T>(s: seq<T>, i: nat)
    requires NoDuplicates(s) && i < |s|
    ensures s[i] !in s[..i] + s[i + 1..]
    ensures NoDuplicates(s[..i] + s[i + 1..])
  {
    var r := s[..i] + s[i + 1..];
    forall k | 0 <= k < |r| ensures r[k] != s[i] {
      if k < i { assert r[k] == s[k]; } else { assert r[k] == s[k + 1]; }
    }
    forall a, b | 0 <= a < b < |r| ensures r[a] != r[b] {
      var a' := if a < i then a else a + 1;
      var b' := if b < i then b else b + 1;
      assert r[a] == s[a'] && r[b] == s[b'];
    }
  }

  /** In a duplicate-free list, removal takes `m` out entirely and keeps the list
      duplicate-free. */
  lemma RemovedNoDuplicates<T>(s: seq<T>, m: T)
    requires NoDuplicates(s)
    ensures m !in Removed(s, m)
    ensures NoDuplicates(Removed(s, m))
  {
    RemovedSplits(s, m);
    if m in s {
      var i :| 0 <= i < |s| && s[i] == m && m !in s[..i] && Removed(s, m) == s[..i] + s[i + 1..];
      DropOneNoDuplicates(s, i);
    }
  }

  /** Removing the last element of a list in which it occurs only there gives the rest. */
  lemma {:induction false} RemovedAppended<T>(s: seq<T>, m: T)
    requires m !in s
    ensures Removed(s + [m], m) == s
    decreases |s|
  {
    var t := s + [m];
    if |s| > 0 {
      assert t[0] == s[0] && t[1..] == s[1..] + [m];
      RemovedAppended(s[1..], m);
      assert Removed(t, m) == [s[0]] + s[1..];
      assert [s[0]] + s[1..] == s;
    } else {
      assert t == [m];
    }
  }

  /** Registering a magnet that was absent and then unregistering it restores the list. */
  lemma RegisterThenUnregister<T>(s: seq<T>, m: T)
    requires m !in s
    ensures Removed(Registered(s, m), m) == s
  {
    RemovedAppended(s, m);
  }

  /** Registering is idempotent; unregistering twice equals unregistering once in a
      duplicate-free list. */
  lemma RepeatIsNoOp<T>(s: seq<T>, m: T)
    requires NoDuplicates(s)
    ensures Registered(Registered(s, m), m) == Registered(s, m)
    ensures Removed(Removed(s, m), m) == Removed(s, m)
  {
    RemovedNoDuplicates(s, m);
    RemovedSplits(Removed(s, m), m);
  }

  /** A MagnetAttachPoint: the duplicate-free list of magnets registered with it. */
  class AttachPoint<T(==)> {
    var magnets: seq<T>

    ghost predicate Valid()
      reads this
    {
      NoDuplicates(magnets)
    }

    constructor ()
      ensures Valid() && magnets == []
    {
      magnets := [];
    }

    /** RegisterMagnetServer: on the server, append the magnet unless already listed. */
    method Register(m: T, isServer: bool)
      modifies this
      ensures magnets == if isServer then Registered(old(magnets), m) else old(magnets)
      ensures old(Valid()) ==> Valid()
    {
      if !isServer {
        return;
      }
      if m !in magnets {
        magnets := magnets + [m];
      }
    }

    /** UnregisterMagnetServer: on the server, remove the magnet if listed. */
    method Unregister(m: T, isServer: bool)
      modifies this
      ensures magnets == if isServer then Removed(old(magnets), m) else old(magnets)
      ensures old(Valid()) ==> Valid()
      ensures old(Valid()) && isServer ==> m !in magnets
    {
      if !isServer {
        return;
      }
      if old(Valid()) {
        RemovedNoDuplicates(magnets, m);
      }
      if m in magnets {
        magnets := Removed(magnets, m);
      } else {
        RemovedSplits(magnets, m);
      }
    }
  }
}
