/** The fixed-size slot tables of nivona_store.c: an array scanned from the
    front, with holes left by erasing, that stands for a bounded map. */
module Slots {
  import opened Bytes

  datatype Slot<V> = Slot(id: int16, value: V, used: bool)

  /** At most one used slot per id. */
  ghost predicate Unique<V>(s: seq<Slot<V>>) {
    forall i, j | 0 <= i < j < |s| :: s[i].used && s[j].used ==> s[i].id != s[j].id
  }

  /** The map a table stands for. */
  function Held<V>(s: seq<Slot<V>>): map<int16, V> {
    if s == [] then map[]
    else
      var n := |s| - 1;
      if s[n].used then Held(s[..n])[s[n].id := s[n].value] else Held(s[..n])
  }

  /** A write to a bounded map: a new key is dropped when the map is full. */
  function BoundedPut<V>(m: map<int16, V>, cap: nat, id: int16, value: V): map<int16, V> {
    if id in m || |m| < cap then m[id := value] else m
  }

  lemma {:induction false} HeldIff<V>(s: seq<Slot<V>>, id: int16)
    ensures id in Held(s) <==> exists i | 0 <= i < |s| :: s[i].used && s[i].id == id
  {
    if s != [] {
      var n := |s| - 1;
      HeldIff(s[..n], id);
      if i :| 0 <= i < |s| && s[i].used && s[i].id == id {
        if i < n {
          assert s[..n][i].used && s[..n][i].id == id;
        }
      }
      if i :| 0 <= i < n && s[..n][i].used && s[..n][i].id == id {
        assert s[i].used && s[i].id == id;
      }
    }
  }

  lemma {:induction false} HeldAt<V>(s: seq<Slot<V>>, i: nat)
    requires Unique(s) && i < |s| && s[i].used
    ensures s[i].id in Held(s) && Held(s)[s[i].id] == s[i].value
  {
    var n := |s| - 1;
    if i < n {
      assert Unique(s[..n]);
      HeldAt(s[..n], i);
    }
  }

  /** Overwriting a slot: the old id, if the slot was used, makes way for the new. */
  lemma {:induction false} HeldUpdate<V>(s: seq<Slot<V>>, i: nat, x: Slot<V>)
    requires Unique(s) && i < |s|
    requires x.used ==> forall k | 0 <= k < |s| && k != i :: s[k].used ==> s[k].id != x.id
    ensures Unique(s[i := x])
    ensures var without := if s[i].used then Held(s) - {s[i].id} else Held(s);
            Held(s[i := x]) == if x.used then without[x.id := x.value] else without
  {
    var n := |s| - 1;
    var t := s[i := x];
    if i == n {
      assert t[..n] == s[..n];
      HeldIff(s[..n], s[n].id);
    } else {
      assert t[..n] == s[..n][i := x];
      assert Unique(s[..n]);
      HeldUpdate(s[..n], i, x);
    }
  }

  function Count<V>(s: seq<Slot<V>>): nat {
    if s == [] then 0 else Count(s[..|s| - 1]) + if s[|s| - 1].used then 1 else 0
  }

  lemma {:induction false} HeldSize<V>(s: seq<Slot<V>>)
    requires Unique(s)
    ensures |Held(s)| == Count(s)
  {
    if s != [] {
      var n := |s| - 1;
      assert Unique(s[..n]);
      HeldSize(s[..n]);
      HeldIff(s[..n], s[n].id);
    }
  }

  lemma {:induction false} CountFull<V>(s: seq<Slot<V>>)
    ensures Count(s) <= |s|
    ensures Count(s) == |s| <==> forall i | 0 <= i < |s| :: s[i].used
  {
    if s != [] {
      var n := |s| - 1;
      CountFull(s[..n]);
      assert forall i | 0 <= i < n :: s[..n][i] == s[i];
      assert forall i | 0 <= i < |s| :: i < n || s[i] == s[n];
    }
  }

  /** No slot is free exactly when as many ids are held as there are slots. */
  lemma {:induction false} FullIff<V>(s: seq<Slot<V>>)
    requires Unique(s)
    ensures |Held(s)| <= |s|
    ensures |Held(s)| == |s| <==> forall i | 0 <= i < |s| :: s[i].used
  {
    HeldSize(s);
    CountFull(s);
  }

  // ---- The scans -------------------------------------------------------------

  /** The used slot of `id`, or -1. */
  method Find<V>(a: array<Slot<V>>, id: int16) returns (at: int)
    ensures -1 <= at < a.Length
    ensures at >= 0 ==> a[at].used && a[at].id == id
    ensures at < 0 <==> id !in Held(a[..])
  {
    HeldIff(a[..], id);
    for i := 0 to a.Length
      invariant forall k | 0 <= k < i :: !(a[k].used && a[k].id == id)
    {
      if a[i].used && a[i].id == id {
        assert a[..][i].used;
        return i;
      }
    }
    return -1;
  }

  /** set_num_mem and set_alpha_mem: the slot of `id` if it has one, else the
      first free slot, else the write is dropped. */
  method Set<V>(a: array<Slot<V>>, id: int16, value: V)
    requires Unique(a[..])
    modifies a
    ensures Unique(a[..])
    ensures Held(a[..]) == BoundedPut(old(Held(a[..])), a.Length, id, value)
  {
    ghost var s := a[..];
    HeldIff(s, id);
    FullIff(s);
    var free := -1;
    for i := 0 to a.Length
      invariant a[..] == s
      invariant forall k | 0 <= k < i :: !(s[k].used && s[k].id == id)
      invariant -1 <= free < i && (free >= 0 ==> !s[free].used)
      invariant free < 0 ==> forall k | 0 <= k < i :: s[k].used
    {
      if a[i].used && a[i].id == id {
        HeldAt(s, i);
        HeldUpdate(s, i, Slot(id, value, true));
        a[i] := a[i].(value := value);
        assert a[..] == s[i := Slot(id, value, true)];
        return;
      }
      if !a[i].used && free < 0 {
        free := i;
      }
    }
    if free < 0 {
      return;
    }
    HeldUpdate(s, free, Slot(id, value, true));
    a[free] := Slot(id, value, true);
    assert a[..] == s[free := Slot(id, value, true)];
  }

  method Erase<V>(a: array<Slot<V>>, id: int16, blank: V)
    requires Unique(a[..])
    modifies a
    ensures Unique(a[..])
    ensures Held(a[..]) == old(Held(a[..])) - {id}
  {
    ghost var s := a[..];
    var at := Find(a, id);
    if at >= 0 {
      HeldUpdate(s, at, Slot(id, blank, false));
      a[at] := Slot(id, blank, false);
      assert a[..] == s[at := Slot(id, blank, false)];
    }
  }
}
