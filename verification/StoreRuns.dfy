/** The register store over any sequence of calls: when memory and flash agree. */
module StoreRuns {
  import opened Boot
  import opened Bytes
  import opened Registers

  datatype Call =
    | Put(id: int16, value: int32)
    | Erase(id: int16)
    | PutText(id: int16, text: bytes)
    | BatchOpen
    | BatchWrite(id: int16, value: int32)
    | BatchClose

  function AfterCall(r: Registers, c: Call): Registers {
    match c
    case Put(id, value) => r.PutNum(id, value)
    case Erase(id) => r.EraseNum(id)
    case PutText(id, text) => r.PutAlpha(id, text)
    case BatchOpen => r.BatchBegin()
    case BatchWrite(id, value) => r.BatchPut(id, value)
    case BatchClose => r.BatchEnd()
  }

  function AfterCalls(r: Registers, calls: seq<Call>): Registers {
    if calls == [] then r else AfterCall(AfterCalls(r, calls[..|calls| - 1]), calls[|calls| - 1])
  }

  /** What a caller can look at beforehand: the write lands in the table, no open batch
      will undo it, and batches are opened and written one at a time. */
  ghost predicate IsHarmless(r: Registers, c: Call) {
    match c
    case Put(id, value) => Lands(r, id) && (InBatch(r, id) ==> r.batch.value[id] == value)
    case Erase(id) => !InBatch(r, id)
    case PutText(id, _) => id in r.alpha || |r.alpha| < 64
    case BatchOpen => r.batch.None? || r.flashNum + r.batch.value == r.flashNum
    case BatchWrite(id, value) =>
      if r.batch.Some? then Lands(r, id) else if id in r.num then r.num[id] == value else !Lands(r, id)
    case BatchClose => true
  }

  lemma {:induction false} CallSyncsIff(r: Registers, c: Call)
    requires Synced(r)
    ensures Synced(AfterCall(r, c)) <==> IsHarmless(r, c)
  {
    match c
    case Put(id, value) => PutNumSyncs(r, id, value);
    case Erase(id) => EraseNumSyncs(r, id);
    case PutText(id, text) => PutAlphaSyncs(r, id, text);
    case BatchOpen => BatchBeginSyncs(r);
    case BatchWrite(id, value) => BatchPutSyncs(r, id, value);
    case BatchClose => BatchEndSyncs(r);
  }

  /** Memory and flash agree at every point of the sequence. */
  ghost predicate AlwaysSynced(r: Registers, calls: seq<Call>) {
    forall n | 0 <= n <= |calls| :: Synced(AfterCalls(r, calls[..n]))
  }

  ghost predicate AllHarmless(r: Registers, calls: seq<Call>) {
    forall n | 0 <= n < |calls| :: IsHarmless(AfterCalls(r, calls[..n]), calls[n])
  }

  lemma {:induction false} OneMoreCall(r: Registers, calls: seq<Call>, n: nat)
    requires n < |calls|
    ensures AfterCalls(r, calls[..n + 1]) == AfterCall(AfterCalls(r, calls[..n]), calls[n])
  {
    assert calls[..n + 1][..n] == calls[..n];
  }

  lemma {:induction false} HarmlessSyncs(r: Registers, calls: seq<Call>, n: nat)
    requires Synced(r) && AllHarmless(r, calls) && n <= |calls|
    ensures Synced(AfterCalls(r, calls[..n]))
    decreases n
  {
    if n == 0 {
      assert calls[..0] == [];
    } else {
      HarmlessSyncs(r, calls, n - 1);
      assert IsHarmless(AfterCalls(r, calls[..n - 1]), calls[n - 1]);
      OneMoreCall(r, calls, n - 1);
      CallSyncsIff(AfterCalls(r, calls[..n - 1]), calls[n - 1]);
    }
  }

  /** From registers that agree with flash, whatever is called: they agree all along
      exactly if every call was harmless when it was made. */
  lemma {:induction false} AlwaysSyncedIff(r: Registers, calls: seq<Call>)
    requires Synced(r)
    ensures AlwaysSynced(r, calls) <==> AllHarmless(r, calls)
  {
    assert calls[..0] == [];
    if AlwaysSynced(r, calls) {
      forall n | 0 <= n < |calls|
        ensures IsHarmless(AfterCalls(r, calls[..n]), calls[n])
      {
        assert Synced(AfterCalls(r, calls[..n])) && Synced(AfterCalls(r, calls[..n + 1]));
        OneMoreCall(r, calls, n);
        CallSyncsIff(AfterCalls(r, calls[..n]), calls[n]);
      }
    }
    if AllHarmless(r, calls) {
      forall n | 0 <= n <= |calls|
        ensures Synced(AfterCalls(r, calls[..n]))
      {
        HarmlessSyncs(r, calls, n);
      }
    }
  }

  /** So whenever no batch is open, flash is memory, and a reboot in any order restores
      exactly what was held, with the factory values that are missing. */
  lemma {:induction false} FlashIsMemory(r: Registers, calls: seq<Call>, order: seq<int16>, alphaOrder: seq<int16>,
                                         dep: int16)
    requires Synced(r) && AllHarmless(r, calls)
    ensures var q := AfterCalls(r, calls);
            q.batch.None? ==>
              && q.flashNum == q.num && q.flashAlpha == q.alpha
              && (CanBoot(q, order, alphaOrder) && Fits(q, dep)
                  ==> Booted(q, order, alphaOrder, dep).num == BootedNum(q.num, dep))
  {
    HarmlessSyncs(r, calls, |calls|);
    assert calls[..|calls|] == calls;
    var q := AfterCalls(r, calls);
    if CanBoot(q, order, alphaOrder) && Fits(q, dep) {
      RebootRestores(q, order, alphaOrder, dep);
    }
  }

  lemma {:induction false} SnocCall(r: Registers, calls: seq<Call>, c: Call)
    ensures AfterCalls(r, calls + [c]) == AfterCall(AfterCalls(r, calls), c)
  {
    assert (calls + [c])[..|calls|] == calls;
  }

  lemma {:induction false} FourCalls(r: Registers, a: Call, b: Call, c: Call, d: Call)
    ensures AfterCalls(r, [a, b, c, d]) == AfterCall(AfterCall(AfterCall(AfterCall(r, a), b), c), d)
  {
    assert [] + [a] == [a] && [a] + [b] == [a, b] && [a, b] + [c] == [a, b, c] && [a, b, c] + [d] == [a, b, c, d];
    SnocCall(r, [], a);
    SnocCall(r, [a], b);
    SnocCall(r, [a, b], c);
    SnocCall(r, [a, b, c], d);
  }

  /** A write or an erase served while a batch holds its id is undone in flash by the
      commit: memory is as the client wants it, and the next boot is not. */
  lemma {:induction false} CommitUndoesWrite(r: Registers, id: int16, batched: int32, value: int32)
    requires Synced(r) && Lands(r, id)
    ensures var q := AfterCalls(r, [BatchOpen, BatchWrite(id, batched), Put(id, value), BatchClose]);
            id in q.num && q.num[id] == value && id in q.flashNum && q.flashNum[id] == batched
    ensures var q := AfterCalls(r, [BatchOpen, BatchWrite(id, batched), Erase(id), BatchClose]);
            id !in q.num && id in q.flashNum && q.flashNum[id] == batched
  {
    FourCalls(r, BatchOpen, BatchWrite(id, batched), Put(id, value), BatchClose);
    FourCalls(r, BatchOpen, BatchWrite(id, batched), Erase(id), BatchClose);
  }
}
