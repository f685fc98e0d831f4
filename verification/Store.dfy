/** The register store of nivona_store.c as it runs: two slot tables changed in
    place, flash beside them, and at most one open batch. */
module Store {
  import opened Boot
  import opened Bytes
  import opened Registers
  import Slots

  lemma {:induction false} EmptyHeld<V>(s: seq<Slots.Slot<V>>)
    requires forall i | 0 <= i < |s| :: !s[i].used
    ensures Slots.Unique(s) && Slots.Held(s) == map[]
  {
    if s != [] {
      EmptyHeld(s[..|s| - 1]);
    }
  }

  /** One table's loop of the load: memory only, nothing is written back. */
  method LoadAll<V>(a: array<Slots.Slot<V>>, ghost all: map<int16, V>, readable: map<int16, V>, order: seq<int16>)
    requires Slots.Unique(a[..]) && Slots.Held(a[..]) == map[] && Enumerates(order, all)
    modifies a
    ensures Slots.Unique(a[..])
    ensures Slots.Held(a[..]) == Loaded(readable, a.Length, order, |order|)
  {
    for i := 0 to |order|
      invariant Slots.Unique(a[..])
      invariant Slots.Held(a[..]) == Loaded(readable, a.Length, order, i)
    {
      if order[i] in readable {
        Slots.Set(a, order[i], readable[order[i]]);
      }
    }
  }

  class RegisterStore {
    const num: array<Slots.Slot<int32>>
    const alpha: array<Slots.Slot<bytes>>
    // Flash is a map whose writes succeed.
    var flashNum: Nums
    var flashAlpha: map<int16, bytes>
    // What an open batch has yet to commit.
    var batch: Option<Nums>

    ghost predicate Valid()
      reads this, num, alpha
    {
      && num.Length == NUM_CAP && Slots.Unique(num[..])
      && alpha.Length == ALPHA_CAP && Slots.Unique(alpha[..])
    }

    ghost function Model(): Registers
      reads this, num, alpha
    {
      Registers(Slots.Held(num[..]), Slots.Held(alpha[..]), flashNum, flashAlpha, batch)
    }

    /** Power-up over what flash holds, taken in the iterators' orders. */
    constructor (flashNum: Nums, flashAlpha: map<int16, bytes>,
                 order: seq<int16>, alphaOrder: seq<int16>, dep: int16)
      requires Enumerates(order, flashNum) && Enumerates(alphaOrder, flashAlpha)
      ensures Valid() && fresh(num) && fresh(alpha)
      ensures Model() == Booted(Registers(map[], map[], flashNum, flashAlpha, None), order, alphaOrder, dep)
    {
      num := new Slots.Slot<int32>[NUM_CAP](_ => Slots.Slot(0, 0, false));
      alpha := new Slots.Slot<bytes>[ALPHA_CAP](_ => Slots.Slot(0, [], false));
      this.flashNum := flashNum;
      this.flashAlpha := flashAlpha;
      this.batch := None;
      new;
      EmptyHeld(num[..]);
      EmptyHeld(alpha[..]);
      Load(order, alphaOrder);
      SeedDefaults(dep);
    }

    /** nvs_load_all. */
    method Load(order: seq<int16>, alphaOrder: seq<int16>)
      requires Valid() && Model() == Registers(map[], map[], flashNum, flashAlpha, None)
      requires Enumerates(order, flashNum) && Enumerates(alphaOrder, flashAlpha)
      modifies num, alpha
      ensures Valid()
      ensures Model() == Registers(Loaded(flashNum, NUM_CAP, order, |order|),
                                   Loaded(Readable(flashAlpha), ALPHA_CAP, alphaOrder, |alphaOrder|),
                                   flashNum, flashAlpha, None)
    {
      LoadAll(num, flashNum, flashNum, order);
      LoadAll(alpha, flashAlpha, Readable(flashAlpha), alphaOrder);
    }

    method HasNum(id: int16) returns (has: bool)
      requires Valid()
      ensures has <==> id in Model().num
    {
      var at := Slots.Find(num, id);
      return at >= 0;
    }

    method SetNum(id: int16, value: int32)
      requires Valid()
      modifies this, num
      ensures Valid() && Model() == old(Model()).PutNum(id, value)
    {
      Slots.Set(num, id, value);
      flashNum := flashNum[id := value];
    }

    method SetMissing(ids: seq<int16>, value: int32)
      requires Valid()
      modifies this, num, alpha
      ensures Valid() && Model() == PutAllMissing(old(Model()), ids, value)
    {
      ghost var r := Model();
      for i := 0 to |ids|
        invariant Valid() && Model() == PutAllMissing(r, ids[..i], value)
      {
        assert ids[..i + 1][..i] == ids[..i];
        var has := HasNum(ids[i]);
        if !has {
          SetNum(ids[i], value);
        }
      }
      assert ids[..|ids|] == ids;
    }

    method SetAlpha(id: int16, value: bytes)
      requires Valid()
      modifies this, alpha
      ensures Valid() && Model() == old(Model()).PutAlpha(id, value)
    {
      var text := Truncated(value);
      Slots.Set(alpha, id, text);
      flashAlpha := flashAlpha[id := text];
    }

    method SeedDefaults(dep: int16)
      requires Valid()
      modifies this, num, alpha
      ensures Valid() && Model() == Seeded(old(Model()), dep)
    {
      ghost var r := Model();
      for i := 0 to 4
        invariant Valid() && Model() == PutProfiles(r, i)
      {
        SetAlpha(PROFILE_BASE + i, ProfileName(i));
      }
      SetMissing(PCT_IDS, 100);
      SetMissing(WARN_IDS, 0);
      if dep != 0 {
        var has := HasNum(dep);
        if !has {
          SetNum(dep, 0);
        }
      }
    }

    method GetNum(id: int16) returns (value: int32)
      requires Valid()
      ensures value == Num(Model().num, id)
    {
      var at := Slots.Find(num, id);
      if at >= 0 {
        Slots.HeldAt(num[..], at);
        return num[at].value;
      }
      return 0;
    }

    method EraseNum(id: int16)
      requires Valid()
      modifies this, num
      ensures Valid() && Model() == old(Model()).EraseNum(id)
    {
      Slots.Erase(num, id, 0);
      flashNum := flashNum - {id};
    }

    method BatchBegin()
      requires Valid()
      modifies this
      ensures Valid() && Model() == old(Model()).BatchBegin()
    {
      batch := Some(map[]);
    }

    method BatchSetNum(id: int16, value: int32)
      requires Valid()
      modifies this, num
      ensures Valid() && Model() == old(Model()).BatchPut(id, value)
    {
      Slots.Set(num, id, value);
      if batch.Some? {
        batch := Some(batch.value[id := value]);
      }
    }

    method BatchEnd()
      requires Valid()
      modifies this
      ensures Valid() && Model() == old(Model()).BatchEnd()
    {
      if batch.Some? {
        flashNum := flashNum + batch.value;
        batch := None;
      }
    }

    /** Copies up to `max` bytes of the register to `out[at..]`. */
    method GetAlpha(id: int16, out: array<uint8>, at: nat, max: nat) returns (n: nat)
      requires Valid() && at + max <= out.Length
      modifies out
      ensures n == (if |Model().Alpha(id)| < max then |Model().Alpha(id)| else max)
      ensures out[..] == old(out[..at]) + Model().Alpha(id)[..n] + old(out[at + n..])
    {
      var k := Slots.Find(alpha, id);
      n := 0;
      if k >= 0 {
        Slots.HeldAt(alpha[..], k);
        var text := alpha[k].value;
        n := if |text| < max then |text| else max;
        forall i | 0 <= i < n {
          out[at + i] := text[i];
        }
      }
    }
  }
}
