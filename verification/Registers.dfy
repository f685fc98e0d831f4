/** The registers of nivona_store.c as values: numeric and text registers in memory,
    their copy in flash, and when the two agree. */
module Registers {
  import opened Bytes
  import opened Slots

  const NUM_CAP: nat := 256
  const ALPHA_CAP: nat := 64
  const ALPHA_MAX: nat := 64

  type Nums = map<int16, int32>

  function Num(m: Nums, id: int16): int32 {
    if id in m then m[id] else 0
  }

  function Truncated(value: bytes): bytes {
    if |value| > ALPHA_MAX then value[..ALPHA_MAX] else value
  }

  /** What the store holds.  `batch` is what an open batch has yet to commit. */
  datatype Registers = Registers(
    num: Nums,
    alpha: map<int16, bytes>,
    flashNum: Nums,
    flashAlpha: map<int16, bytes>,
    batch: Option<Nums>
  ) {
    function Alpha(id: int16): bytes {
      if id in alpha then alpha[id] else []
    }

    function PutNum(id: int16, value: int32): Registers {
      this.(num := BoundedPut(num, NUM_CAP, id, value), flashNum := flashNum[id := value])
    }

    function EraseNum(id: int16): Registers {
      this.(num := num - {id}, flashNum := flashNum - {id})
    }

    function PutAlpha(id: int16, value: bytes): Registers {
      var text := Truncated(value);
      this.(alpha := BoundedPut(alpha, ALPHA_CAP, id, text), flashAlpha := flashAlpha[id := text])
    }

    function BatchBegin(): Registers {
      this.(batch := Some(map[]))
    }

    function BatchPut(id: int16, value: int32): Registers {
      this.(num := BoundedPut(num, NUM_CAP, id, value),
            batch := if batch.Some? then Some(batch.value[id := value]) else None)
    }

    function BatchEnd(): Registers {
      if batch.Some? then this.(flashNum := flashNum + batch.value, batch := None) else this
    }
  }

  // ---- Memory and flash agree --------------------------------------------------

  /** Flash as memory should see it: with the open batch's writes laid over it. */
  ghost function Overlaid(r: Registers): Nums {
    if r.batch.Some? then r.flashNum + r.batch.value else r.flashNum
  }

  /** Memory is flash, with an open batch's writes laid over it. */
  ghost predicate Synced(r: Registers) {
    r.num == Overlaid(r) && r.alpha == r.flashAlpha
  }

  /** Whether a write to the table in memory lands. */
  predicate Lands(r: Registers, id: int16) {
    id in r.num || |r.num| < 256
  }

  /** Whether an open batch has yet to commit this id. */
  predicate InBatch(r: Registers, id: int16) {
    r.batch.Some? && id in r.batch.value
  }

  /** What an open batch lays over a write underneath it. */
  lemma {:induction false} OverlayUnder(base: Nums, over: Nums, id: int16, value: int32)
    ensures base[id := value] + over == if id in over then base + over else (base + over)[id := value]
  {
  }

  lemma {:induction false} PutOverlaid(r: Registers, id: int16, value: int32)
    ensures Overlaid(r.PutNum(id, value)) == if InBatch(r, id) then Overlaid(r) else Overlaid(r)[id := value]
  {
    if r.batch.Some? {
      OverlayUnder(r.flashNum, r.batch.value, id, value);
    }
  }

  lemma {:induction false} PutMatches(m: Nums, id: int16, value: int32, target: Nums)
    requires target == m[id := value] || (id in m && target == m)
    ensures BoundedPut(m, NUM_CAP, id, value) == target
            <==> (id in m || |m| < NUM_CAP) && (target == m && id in m ==> m[id] == value)
  {
    assert id in m[id := value] && m[id := value][id] == value;
    if id in m && m[id] == value {
      assert m[id := value] == m;
    }
  }

  /** A write keeps memory and flash alike exactly when the table has room for it and no
      open batch is going to overwrite it with another value. */
  lemma {:induction false} PutNumSyncs(r: Registers, id: int16, value: int32)
    requires Synced(r)
    ensures Synced(r.PutNum(id, value)) <==> Lands(r, id) && (InBatch(r, id) ==> r.batch.value[id] == value)
  {
    PutOverlaid(r, id, value);
    PutMatches(r.num, id, value, if InBatch(r, id) then r.num else r.num[id := value]);
    if InBatch(r, id) {
      assert id in r.num && r.num[id] == r.batch.value[id];
    }
  }

  lemma {:induction false} PutAlphaSyncs(r: Registers, id: int16, value: bytes)
    requires Synced(r)
    ensures Synced(r.PutAlpha(id, value)) <==> id in r.alpha || |r.alpha| < 64
  {
    assert id in r.PutAlpha(id, value).flashAlpha;
  }

  lemma {:induction false} OverlayErased(base: Nums, over: Nums, id: int16)
    ensures id !in over ==> base - {id} + over == base + over - {id}
    ensures id in over ==> id in base - {id} + over
  {
  }

  /** Erasing keeps them alike exactly when no open batch is going to bring the id back. */
  lemma {:induction false} EraseNumSyncs(r: Registers, id: int16)
    requires Synced(r)
    ensures Synced(r.EraseNum(id)) <==> !InBatch(r, id)
    ensures id !in r.EraseNum(id).num
  {
    if r.batch.Some? {
      OverlayErased(r.flashNum, r.batch.value, id);
    }
  }

  /** Opening a batch keeps them alike exactly when no other is open, or what it would
      have committed is in flash already. */
  lemma {:induction false} BatchBeginSyncs(r: Registers)
    requires Synced(r)
    ensures Synced(r.BatchBegin()) <==> r.batch.None? || r.flashNum + r.batch.value == r.flashNum
  {
    assert r.flashNum + map[] == r.flashNum;
  }

  lemma {:induction false} OverlayPut(base: Nums, over: Nums, id: int16, value: int32)
    ensures base + over[id := value] == (base + over)[id := value]
  {
  }

  /** A batched write keeps memory flash overlaid with the batch exactly when it lands;
      with no batch open, exactly when it changes nothing. */
  lemma {:induction false} BatchPutSyncs(r: Registers, id: int16, value: int32)
    requires Synced(r)
    ensures Synced(r.BatchPut(id, value))
            <==> if r.batch.Some? then Lands(r, id)
                 else if id in r.num then r.num[id] == value else !Lands(r, id)
  {
    if r.batch.Some? {
      OverlayPut(r.flashNum, r.batch.value, id, value);
    }
    assert id in r.num[id := value] && r.num[id := value][id] == value;
  }

  lemma {:induction false} BatchEndSyncs(r: Registers)
    requires Synced(r)
    ensures Synced(r.BatchEnd()) && r.BatchEnd().batch.None? && r.BatchEnd().num == r.num
  {
  }

  lemma {:induction false} SubsetSize(a: set<int16>, b: set<int16>)
    requires a < b
    ensures |a| < |b|
  {
    assert b == a + (b - a);
    assert |b| == |a| + |b - a|;
  }
}
