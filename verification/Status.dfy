/** The status block of nivona_fsm.c and its eight bytes on the wire. */
module Status {
  import opened Bytes

  // Prompts, as the manipulation byte.
  const NONE: uint8 := 0
  const BU_REMOVED: uint8 := 1
  const TRAYS_MISSING: uint8 := 2
  const EMPTY_TRAYS: uint8 := 3
  const FILL_WATER: uint8 := 4
  const CLOSE_POWDER_LID: uint8 := 5
  const FILL_POWDER: uint8 := 6
  const MOVE_CUP: uint8 := 11
  const FLUSH_REQUIRED: uint8 := 20

  datatype Block = Block(process: int16, sub: int16, info: uint8, manip: uint8, progress: int16)

  function ReadyBlock(ready: int16): Block {
    Block(ready, 0, 0, NONE, 0)
  }

  function Packed(b: Block): (p: bytes)
    ensures |p| == 8
  {
    PutBe16(b.process) + PutBe16(b.sub) + [b.info, b.manip] + PutBe16(b.progress)
  }

  /** How the Home Assistant side reads the eight bytes: `>hhBBh`. */
  function Unpacked(p: bytes): Block
    requires |p| == 8
  {
    Block(GetBe16(p), GetBe16(p[2..]), p[4], p[5], GetBe16(p[6..]))
  }

  /** How the phone reads bytes 4 and 5: one 16-bit message. */
  function Message(p: bytes): int16
    requires |p| == 8
  {
    GetBe16(p[4..])
  }

  /** Both readers get back what was packed: the block, and, while the info byte
      is 0, the prompt as the message; a nonzero info byte spoils the message. */
  lemma {:induction false} PackedIsRead(b: Block)
    ensures Unpacked(Packed(b)) == b
    ensures Message(Packed(b)) == b.manip <==> b.info == 0
  {
    var p := Packed(b);
    assert p[..2] == PutBe16(b.process) && p[2..][..2] == PutBe16(b.sub) && p[6..] == PutBe16(b.progress);
    Be16RoundTrip(b.process);
    Be16RoundTrip(b.sub);
    Be16RoundTrip(b.progress);
    assert GetBe16(p) == GetBe16(p[..2]) && GetBe16(p[2..]) == GetBe16(p[2..][..2]);
    assert p[4..][0] == b.info && p[4..][1] == b.manip;
  }

  class Panel {
    var process: int16
    var sub: int16
    var info: uint8
    var manip: uint8
    var progress: int16

    ghost function Model(): Block
      reads this
    {
      Block(process, sub, info, manip, progress)
    }

    constructor (ready: int16)
      ensures Model() == ReadyBlock(ready)
    {
      process, sub, info, manip, progress := ready, 0, 0, NONE, 0;
    }

    method SetProcess(p: int16, sp: int16)
      modifies this
      ensures Model() == old(Model()).(process := p, sub := sp)
    {
      process, sub := p, sp;
    }

    method SetProgress(p: int16)
      modifies this
      ensures Model() == old(Model()).(progress := p)
    {
      progress := p;
    }

    method SetManipulation(m: uint8)
      modifies this
      ensures Model() == old(Model()).(manip := m)
    {
      manip := m;
    }

    method SetInfo(i: uint8)
      modifies this
      ensures Model() == old(Model()).(info := i)
    {
      info := i;
    }

    method GetStatus() returns (b: Block)
      ensures b == Model()
    {
      b := Block(process, sub, info, manip, progress);
    }

    method Pack(out: array<uint8>)
      requires out.Length == 8
      modifies out
      ensures out[..] == Packed(Model())
    {
      var s := GetStatus();
      var p, sp, pr := PutBe16(s.process), PutBe16(s.sub), PutBe16(s.progress);
      out[0], out[1] := p[0], p[1];
      out[2], out[3] := sp[0], sp[1];
      out[4] := s.info;
      out[5] := s.manip;
      out[6], out[7] := pr[0], pr[1];
    }
  }
}
