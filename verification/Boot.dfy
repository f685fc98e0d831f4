/** Power-up of the register store: what is loaded from flash, and what is seeded
    (nvs_load_all and seed_defaults in nivona_store.c). */
module Boot {
  import opened Bytes
  import opened Registers
  import opened Slots

  // ---- Booting ---------------------------------------------------------------

  /** The texts that fit the buffer they are loaded through. */
  function Readable(flash: map<int16, bytes>): map<int16, bytes> {
    map id | id in flash && |flash[id]| <= ALPHA_MAX :: flash[id]
  }

  /** Memory after loading the first `n` flash entries in the iterator's order; entries
      that are not readable are passed over. */
  function Loaded<V>(readable: map<int16, V>, cap: nat, order: seq<int16>, n: nat): map<int16, V>
    requires n <= |order|
  {
    if n == 0 then map[]
    else
      var before, id := Loaded(readable, cap, order, n - 1), order[n - 1];
      if id in readable then BoundedPut(before, cap, id, readable[id]) else before
  }

  /** `order` lists the keys of `flash`, each once, in any order. */
  ghost predicate Enumerates<V>(order: seq<int16>, flash: map<int16, V>) {
    && (forall i, j | 0 <= i < j < |order| :: order[i] != order[j])
    && (forall id :: id in order <==> id in flash)
  }

  function PutMissing(r: Registers, id: int16, value: int32): Registers {
    if id in r.num then r else r.PutNum(id, value)
  }

  function PutAllMissing(r: Registers, ids: seq<int16>, value: int32): Registers {
    if ids == [] then r
    else PutMissing(PutAllMissing(r, ids[..|ids| - 1], value), ids[|ids| - 1], value)
  }

  const PROFILE_BASE: int16 := 0x0100

  function ProfileName(i: int): bytes
    requires 0 <= i < 4
  {
    // "Profile " and the digit
    [0x50, 0x72, 0x6F, 0x66, 0x69, 0x6C, 0x65, 0x20, 0x31 + i]
  }

  function PutProfiles(r: Registers, n: nat): Registers
    requires n <= 4
  {
    if n == 0 then r else PutProfiles(r, n - 1).PutAlpha(PROFILE_BASE + (n - 1), ProfileName(n - 1))
  }

  const PCT_IDS: seq<int16> := [600, 610, 620, 640]
  const WARN_IDS: seq<int16> := [601, 611, 621, 641]

  /** The factory values; `dep` is the family's filter setting, 0 for none. */
  function Seeded(r: Registers, dep: int16): Registers {
    var gauges := PutAllMissing(PutAllMissing(PutProfiles(r, 4), PCT_IDS, 100), WARN_IDS, 0);
    if dep != 0 then PutMissing(gauges, dep, 0) else gauges
  }

  ghost predicate CanBoot(r: Registers, order: seq<int16>, alphaOrder: seq<int16>) {
    Enumerates(order, r.flashNum) && Enumerates(alphaOrder, r.flashAlpha)
  }

  /** Power-up: memory is loaded from flash, then seeded; an open batch is lost. */
  function Booted(r: Registers, order: seq<int16>, alphaOrder: seq<int16>, dep: int16): Registers
    requires CanBoot(r, order, alphaOrder)
  {
    Seeded(Registers(Loaded(r.flashNum, NUM_CAP, order, |order|),
                     Loaded(Readable(r.flashAlpha), ALPHA_CAP, alphaOrder, |alphaOrder|),
                     r.flashNum, r.flashAlpha, None), dep)
  }

  // ---- What a boot restores ----------------------------------------------------

  function Taken(order: seq<int16>, n: nat): set<int16>
    requires n <= |order|
  {
    if n == 0 then {} else Taken(order, n - 1) + {order[n - 1]}
  }

  lemma {:induction false} TakenIff(order: seq<int16>, n: nat, id: int16)
    requires n <= |order|
    ensures id in Taken(order, n) <==> exists i | 0 <= i < n :: order[i] == id
    decreases n
  {
    if n > 0 {
      TakenIff(order, n - 1, id);
    }
  }

  lemma {:induction false} TakenIsNew<V>(all: map<int16, V>, order: seq<int16>, n: nat)
    requires Enumerates(order, all) && n < |order|
    ensures order[n] !in Taken(order, n)
  {
    TakenIff(order, n, order[n]);
  }

  function Part<V>(m: map<int16, V>, keys: set<int16>): map<int16, V> {
    map id | id in keys && id in m :: m[id]
  }

  lemma {:induction false} PartGrows<V>(m: map<int16, V>, keys: set<int16>, id: int16, cap: nat)
    requires id in m && id !in keys && |m| <= cap
    ensures BoundedPut(Part(m, keys), cap, id, m[id]) == Part(m, keys + {id})
  {
    var p := Part(m, keys);
    assert p.Keys < m.Keys;
    SubsetSize(p.Keys, m.Keys);
    assert |p| == |p.Keys| && |m| == |m.Keys|;
  }

  lemma {:induction false} LoadedIs<V>(all: map<int16, V>, readable: map<int16, V>, cap: nat, order: seq<int16>, n: nat)
    requires Enumerates(order, all) && n <= |order| && |readable| <= cap
    ensures Loaded(readable, cap, order, n) == Part(readable, Taken(order, n))
    decreases n
  {
    if n == 0 {
      assert Part(readable, {}) == map[];
    } else {
      var keys, id := Taken(order, n - 1), order[n - 1];
      LoadedIs(all, readable, cap, order, n - 1);
      TakenIsNew(all, order, n - 1);
      if id in readable {
        PartGrows(readable, keys, id, cap);
      } else {
        assert Part(readable, keys + {id}) == Part(readable, keys);
      }
    }
  }

  /** Loading brings back all that is readable, in whatever order the iterator takes. */
  lemma {:induction false} LoadedAll<V>(all: map<int16, V>, readable: map<int16, V>, cap: nat, order: seq<int16>)
    requires Enumerates(order, all) && readable.Keys <= all.Keys && |readable| <= cap
    ensures Loaded(readable, cap, order, |order|) == readable
  {
    LoadedIs(all, readable, cap, order, |order|);
    forall id: int16 | id in readable
      ensures id in Taken(order, |order|)
    {
      TakenIff(order, |order|, id);
      assert id in order <==> id in all;
    }
  }

  /** Every register of `ids`, at one value. */
  function Filled(ids: seq<int16>, value: int32): Nums {
    map id | id in ids :: value
  }

  function Defaults(dep: int16): Nums {
    (if dep != 0 then map[dep := 0] else map[]) + (Filled(WARN_IDS, 0) + Filled(PCT_IDS, 100))
  }

  function Profiles(n: nat): map<int16, bytes>
    requires n <= 4
  {
    if n == 0 then map[] else Profiles(n - 1)[PROFILE_BASE + (n - 1) := ProfileName(n - 1)]
  }

  /** What a boot makes of flash: numeric registers that are missing get their
      factory value; the profile names get theirs whether missing or not. */
  function BootedNum(flash: Nums, dep: int16): Nums {
    Defaults(dep) + flash
  }

  function BootedAlpha(flash: map<int16, bytes>): map<int16, bytes> {
    flash + Profiles(4)
  }

  /** Room for what is stored and what the boot adds. */
  ghost predicate Fits(r: Registers, dep: int16) {
    && |r.flashNum.Keys + {600, 601, 610, 611, 620, 621, 640, 641} + (if dep != 0 then {dep} else {})| <= 256
    && |r.flashAlpha.Keys + {0x0100, 0x0101, 0x0102, 0x0103}| <= 64
  }

  ghost predicate BootFits(r: Registers, dep: int16) {
    |BootedNum(r.flashNum, dep)| <= 256 && |BootedAlpha(r.flashAlpha)| <= 64
  }

  lemma {:induction false} DefaultKeys(dep: int16)
    ensures Defaults(dep).Keys == {600, 601, 610, 611, 620, 621, 640, 641} + (if dep != 0 then {dep} else {})
  {
    assert PCT_IDS[0] == 600 && PCT_IDS[1] == 610 && PCT_IDS[2] == 620 && PCT_IDS[3] == 640;
    assert WARN_IDS[0] == 601 && WARN_IDS[1] == 611 && WARN_IDS[2] == 621 && WARN_IDS[3] == 641;
  }

  lemma {:induction false} ProfileKeys(n: nat)
    requires n <= 4
    ensures forall id: int16 :: id in Profiles(n) <==> PROFILE_BASE <= id < PROFILE_BASE + n
    ensures forall i | 0 <= i < n :: Profiles(n)[PROFILE_BASE + i] == ProfileName(i)
    decreases n
  {
    if n > 0 {
      ProfileKeys(n - 1);
    }
  }

  lemma {:induction false} BootedKeys(r: Registers, dep: int16)
    ensures BootedNum(r.flashNum, dep).Keys
            == r.flashNum.Keys + {600, 601, 610, 611, 620, 621, 640, 641} + (if dep != 0 then {dep} else {})
    ensures BootedAlpha(r.flashAlpha).Keys == r.flashAlpha.Keys + {0x0100, 0x0101, 0x0102, 0x0103}
  {
    DefaultKeys(dep);
    ProfileKeys(4);
    assert Profiles(4).Keys == {0x0100, 0x0101, 0x0102, 0x0103};
  }

  lemma {:induction false} KeyCount<V>(m: map<int16, V>)
    ensures |m.Keys| == |m|
  {
  }

  lemma {:induction false} FitsBoots(r: Registers, dep: int16)
    ensures Fits(r, dep) <==> BootFits(r, dep)
  {
    BootedKeys(r, dep);
    KeyCount(BootedNum(r.flashNum, dep));
    KeyCount(BootedAlpha(r.flashAlpha));
  }

  lemma {:induction false} Room<V>(m: map<int16, V>, whole: map<int16, V>, id: int16)
    requires m.Keys <= whole.Keys && id in whole && id !in m
    ensures |m| < |whole|
  {
    SubsetSize(m.Keys, whole.Keys);
  }

  lemma {:induction false} SubmapSize<V>(m: map<int16, V>, whole: map<int16, V>)
    requires m.Keys <= whole.Keys
    ensures |m| <= |whole|
  {
    if m.Keys != whole.Keys {
      SubsetSize(m.Keys, whole.Keys);
    }
    assert |m| == |m.Keys| && |whole| == |whole.Keys|;
  }

  function WithNum(r: Registers, m: Nums): Registers {
    r.(num := m, flashNum := m)
  }

  lemma {:induction false} PutMissingFits(r: Registers, id: int16, value: int32, whole: Nums)
    requires r.num == r.flashNum && r.num.Keys <= whole.Keys && id in whole && |whole| <= NUM_CAP
    ensures PutMissing(r, id, value) == WithNum(r, map[id := value] + r.num)
  {
    if id in r.num {
      assert map[id := value] + r.num == r.num;
    } else {
      Room(r.num, whole, id);
      assert map[id := value] + r.num == r.num[id := value];
    }
  }

  lemma {:induction false} FilledSnoc(ids: seq<int16>, id: int16, value: int32, m: Nums)
    ensures map[id := value] + (Filled(ids, value) + m) == Filled(ids + [id], value) + m
  {
  }

  lemma {:induction false} PutAllMissingFits(r: Registers, ids: seq<int16>, value: int32, whole: Nums)
    requires r.num == r.flashNum && r.num.Keys <= whole.Keys && |whole| <= NUM_CAP
    requires forall id | id in ids :: id in whole
    ensures PutAllMissing(r, ids, value) == WithNum(r, Filled(ids, value) + r.num)
  {
    if ids == [] {
      assert Filled(ids, value) + r.num == r.num;
    } else {
      var front, id := ids[..|ids| - 1], ids[|ids| - 1];
      assert ids == front + [id];
      assert id in ids;
      PutAllMissingFits(r, front, value, whole);
      PutMissingFits(WithNum(r, Filled(front, value) + r.num), id, value, whole);
      FilledSnoc(front, id, value, r.num);
    }
  }

  function WithAlpha(r: Registers, m: map<int16, bytes>, flash: map<int16, bytes>): Registers {
    r.(alpha := m, flashAlpha := flash)
  }

  lemma {:induction false} PutAlphaFits(r: Registers, id: int16, text: bytes, whole: map<int16, bytes>)
    requires r.alpha.Keys <= whole.Keys && id in whole && |whole| <= ALPHA_CAP
    requires |text| <= ALPHA_MAX
    ensures r.PutAlpha(id, text) == WithAlpha(r, r.alpha[id := text], r.flashAlpha[id := text])
  {
    if id !in r.alpha {
      Room(r.alpha, whole, id);
    }
  }

  /** A map of texts with the first `n` profile names put in, one after another. */
  function Named(m: map<int16, bytes>, n: nat): map<int16, bytes>
    requires n <= 4
  {
    if n == 0 then m else Named(m, n - 1)[PROFILE_BASE + (n - 1) := ProfileName(n - 1)]
  }

  lemma {:induction false} NamedIs(m: map<int16, bytes>, n: nat)
    requires n <= 4
    ensures Named(m, n) == m + Profiles(n)
    decreases n
  {
    if n == 0 {
      assert m + Profiles(0) == m;
    } else {
      NamedIs(m, n - 1);
    }
  }

  lemma {:induction false} NamedWithin(m: map<int16, bytes>, n: nat, last: nat, whole: map<int16, bytes>)
    requires n < last <= 4 && m.Keys <= whole.Keys && Profiles(last).Keys <= whole.Keys
    ensures PROFILE_BASE + n in whole && Named(m, n).Keys <= whole.Keys
  {
    ProfileKeys(n);
    ProfileKeys(last);
    NamedIs(m, n);
  }

  lemma {:induction false} PutProfilesFits(r: Registers, n: nat, last: nat, whole: map<int16, bytes>)
    requires n <= last <= 4 && r.alpha.Keys <= whole.Keys && |whole| <= ALPHA_CAP && Profiles(last).Keys <= whole.Keys
    ensures PutProfiles(r, n) == WithAlpha(r, Named(r.alpha, n), Named(r.flashAlpha, n))
    decreases n
  {
    if n > 0 {
      PutProfilesFits(r, n - 1, last, whole);
      NamedWithin(r.alpha, n - 1, last, whole);
      PutAlphaFits(PutProfiles(r, n - 1), PROFILE_BASE + (n - 1), ProfileName(n - 1), whole);
    }
  }

  lemma {:induction false} BootedNumParts(flash: Nums, dep: int16)
    ensures var m := Filled(PCT_IDS, 100) + flash;
            var gauges := Filled(WARN_IDS, 0) + m;
            var whole := BootedNum(flash, dep);
            whole == (if dep != 0 then map[dep := 0] + gauges else gauges)
            && flash.Keys <= m.Keys <= gauges.Keys <= whole.Keys && (dep != 0 ==> dep in whole)
            && (forall id | id in PCT_IDS || id in WARN_IDS :: id in whole)
  {
  }

  lemma {:induction false} SeededFits(r: Registers, dep: int16)
    requires r.num == r.flashNum && r.alpha.Keys <= r.flashAlpha.Keys && BootFits(r, dep)
    ensures Seeded(r, dep)
            == WithNum(WithAlpha(r, BootedAlpha(r.alpha), BootedAlpha(r.flashAlpha)), BootedNum(r.num, dep))
  {
    var whole := BootedNum(r.num, dep);
    var m := Filled(PCT_IDS, 100) + r.num;
    var gauges := Filled(WARN_IDS, 0) + m;
    BootedNumParts(r.num, dep);
    PutProfilesFits(r, 4, 4, BootedAlpha(r.flashAlpha));
    NamedIs(r.alpha, 4);
    NamedIs(r.flashAlpha, 4);
    var p := WithAlpha(r, BootedAlpha(r.alpha), BootedAlpha(r.flashAlpha));
    PutAllMissingFits(p, PCT_IDS, 100, whole);
    PutAllMissingFits(WithNum(p, m), WARN_IDS, 0, whole);
    if dep != 0 {
      PutMissingFits(WithNum(p, gauges), dep, 0, whole);
    }
  }

  /** While everything fits, a reboot in any iterator order brings back all that is
      readable and adds the factory values that are missing, in flash as well. */
  lemma {:induction false} RebootRestores(r: Registers, order: seq<int16>, alphaOrder: seq<int16>, dep: int16)
    requires CanBoot(r, order, alphaOrder) && Fits(r, dep)
    ensures var num := BootedNum(r.flashNum, dep);
            Booted(r, order, alphaOrder, dep)
            == Registers(num, BootedAlpha(Readable(r.flashAlpha)), num, BootedAlpha(r.flashAlpha), None)
  {
    FitsBoots(r, dep);
    var texts := Readable(r.flashAlpha);
    SubmapSize(r.flashNum, BootedNum(r.flashNum, dep));
    SubmapSize(texts, BootedAlpha(r.flashAlpha));
    LoadedAll(r.flashNum, r.flashNum, NUM_CAP, order);
    LoadedAll(r.flashAlpha, texts, ALPHA_CAP, alphaOrder);
    SeededFits(Registers(r.flashNum, texts, r.flashNum, r.flashAlpha, None), dep);
  }

  lemma {:induction false} OverlayTwice(d: Nums, m: Nums)
    ensures d + (d + m) == d + m
  {
  }

  lemma {:induction false} BootedTwice(r: Registers, dep: int16)
    ensures BootedNum(BootedNum(r.flashNum, dep), dep) == BootedNum(r.flashNum, dep)
    ensures BootedAlpha(BootedAlpha(r.flashAlpha)) == BootedAlpha(r.flashAlpha)
    ensures BootedAlpha(Readable(BootedAlpha(r.flashAlpha))) == BootedAlpha(Readable(r.flashAlpha))
  {
    OverlayTwice(Defaults(dep), r.flashNum);
    var p := Profiles(4);
    assert r.flashAlpha + p + p == r.flashAlpha + p;
    forall id: int16
      ensures id in Readable(r.flashAlpha + p) + p <==> id in Readable(r.flashAlpha) + p
    {
    }
  }

  /** A second reboot, in any order again, changes nothing. */
  lemma {:induction false} SecondRebootIsIdle(r: Registers, order: seq<int16>, alphaOrder: seq<int16>, dep: int16,
                                              order2: seq<int16>, alphaOrder2: seq<int16>)
    requires CanBoot(r, order, alphaOrder) && Fits(r, dep)
    requires CanBoot(Booted(r, order, alphaOrder, dep), order2, alphaOrder2)
    ensures Booted(Booted(r, order, alphaOrder, dep), order2, alphaOrder2, dep) == Booted(r, order, alphaOrder, dep)
  {
    RebootRestores(r, order, alphaOrder, dep);
    var s := Booted(r, order, alphaOrder, dep);
    BootedTwice(r, dep);
    FitsBoots(r, dep);
    FitsBoots(s, dep);
    RebootRestores(s, order2, alphaOrder2, dep);
  }

  const PROFILE_TEXTS: seq<string> := ["Profile 1", "Profile 2", "Profile 3", "Profile 4"]

  lemma {:induction false} ProfilesAre()
    ensures forall i | 0 <= i < 4 :: ProfileName(i) == Ascii(PROFILE_TEXTS[i])
  {
    assert PROFILE_TEXTS[0] == "Profile 1" && PROFILE_TEXTS[1] == "Profile 2";
    assert PROFILE_TEXTS[2] == "Profile 3" && PROFILE_TEXTS[3] == "Profile 4";
  }

  lemma {:induction false} BootedText(flash: map<int16, bytes>, id: int16)
    requires id in flash
    ensures var i, b := id - PROFILE_BASE, BootedAlpha(Readable(flash));
            if 0 <= i < 4 then id in b && b[id] == ProfileName(i)
            else if |flash[id]| <= ALPHA_MAX then id in b && b[id] == flash[id]
            else id !in b
  {
    ProfileKeys(4);
  }

  /** A reboot brings a text back exactly if it is readable and is not, at a profile's
      id, another than the factory name. */
  lemma {:induction false} TextSurvivesIff(r: Registers, order: seq<int16>, alphaOrder: seq<int16>, dep: int16,
                                           id: int16)
    requires CanBoot(r, order, alphaOrder) && Fits(r, dep) && id in r.flashAlpha
    ensures var text := r.flashAlpha[id];
            Booted(r, order, alphaOrder, dep).Alpha(id) == text
            <==> |text| <= 64 && (0x0100 <= id <= 0x0103 ==> text == Ascii(PROFILE_TEXTS[id - 0x0100]))
  {
    ProfilesAre();
    RebootRestores(r, order, alphaOrder, dep);
    BootedText(r.flashAlpha, id);
  }

  lemma {:induction false} UnderMissing(base: Nums, over: Nums, id: int16)
    requires id !in over
    ensures Num(base + over, id) == Num(base, id)
  {
  }

  lemma {:induction false} OnlyGaugesAreFull(dep: int16, id: int16)
    ensures Num(Defaults(dep), id) == if id == 600 || id == 610 || id == 620 || id == 640 then 100 else 0
  {
    assert PCT_IDS[0] == 600 && PCT_IDS[1] == 610 && PCT_IDS[2] == 620 && PCT_IDS[3] == 640;
  }

  /** A register that is reset reads 0 until the next boot, which gives it its factory
      value: 100 if it is one of the gauges, and 0, as at once, if it is not. */
  lemma {:induction false} ResetWaitsForBoot(r: Registers, id: int16, order: seq<int16>, alphaOrder: seq<int16>,
                                             dep: int16)
    requires CanBoot(r.EraseNum(id), order, alphaOrder) && Fits(r.EraseNum(id), dep)
    ensures Num(r.EraseNum(id).num, id) == 0
    ensures Num(Booted(r.EraseNum(id), order, alphaOrder, dep).num, id)
            == if id == 600 || id == 610 || id == 620 || id == 640 then 100 else 0
  {
    OnlyGaugesAreFull(dep, id);
    var q := r.EraseNum(id);
    RebootRestores(q, order, alphaOrder, dep);
    UnderMissing(Defaults(dep), q.flashNum, id);
  }
}
