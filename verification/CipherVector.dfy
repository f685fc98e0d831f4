/** The published vector of the cipher: three bytes under the master key.  What the 256
    rounds of the key setup do is written down in a record, round by round; that it is a
    record of those rounds is checked a few rounds at a time. */
module CipherVector {
  import opened Bytes
  import opened Rc4

  /** What one round of the setup does: its second index, the entry it finds at its first
      index, and the last round before that put an entry there (itself if none did). */
  datatype Move = Move(path: int, met: int, last: int)

  type Trace = int -> Move

  type Key = key: bytes | |key| == 32 witness MASTER_KEY

  /** The second index before round `r`. */
  function Before(t: Trace, r: int): int {
    if r == 0 then 0 else t(r - 1).path
  }

  /** The positions that the vector reads are left alone from some round on, or up to it. */
  predicate Spares(r: int, j: int) {
    && (r < 136 ==> j != 253) && (r < 109 ==> j != 200) && (r < 2 ==> j != 240) && (r < 1 ==> j != 152)
    && (76 < r < 148 ==> j != 190) && (57 < r < 137 ==> j != 188) && (148 < r < 152 ==> j != 148)
    && (137 < r < 227 ==> j != 137) && (186 < r < 228 ==> j != 157) && (109 < r < 237 ==> j != 109)
    && (1 < r ==> j != 1) && (2 < r ==> j != 2) && (91 < r ==> j != 3) && (1 < r ==> j != 152)
    && (136 < r ==> j != 136) && (227 < r ==> j != 227) && (228 < r ==> j != 228) && (237 < r ==> j != 237)
    && (152 < r ==> j != 148)
  }

  /** What is checked of round `r`: its second index; that the round said to be the last to
      reach that index comes no earlier than this one; where the entry it finds is from. */
  predicate FitsAt(key: Key, t: Trace, r: int, path: int, last: int) {
    && path == (Before(t, r) + t(r).met + key[r % 32]) % 256
    && (r < path ==> r <= t(path).last < path)
    && (if last < r then 0 <= last && t(last).path == r && t(last).met == t(r).met else last == r == t(r).met)
    && Spares(r, path)
  }

  predicate Fits(key: Key, t: Trace, r: int) {
    FitsAt(key, t, r, t(r).path, t(r).last)
  }

  ghost predicate IsTrace(key: Key, t: Trace) {
    forall r {:trigger Fits(key, t, r)} | 0 <= r < 256 :: Fits(key, t, r)
  }

  // ---- Where a trace leads -------------------------------------------------------------------

  /** The entry at position `p` after `n` rounds, traced back through them. */
  function Held(t: Trace, p: int, n: nat): int
    decreases n
  {
    if n == 0 then p
    else if p == t(n - 1).path then t(n - 1).met
    else if p == n - 1 then Held(t, t(n - 1).path, n - 1)
    else Held(t, p, n - 1)
  }

  /** No round from `a` up to `n` has `p` for its second index. */
  ghost predicate Clear(t: Trace, p: int, a: int, n: int) {
    forall r | a <= r < n :: t(r).path != p
  }

  lemma {:induction false} Untouched(t: Trace, p: int, a: nat, n: nat)
    requires a <= n && Clear(t, p, a, n) && !(a <= p < n)
    ensures Held(t, p, n) == Held(t, p, a)
    decreases n
  {
    if a < n {
      Untouched(t, p, a, n - 1);
    }
  }

  lemma {:induction false} MetIsHeld(key: Key, t: Trace, m: nat)
    requires IsTrace(key, t) && m < 256
    ensures Held(t, m, m) == t(m).met
  {
    assert Fits(key, t, m);
    var from := if t(m).last < m then t(m).last + 1 else 0;
    forall r | from <= r < m
      ensures t(r).path != m
    {
      assert Fits(key, t, r);
    }
    Untouched(t, m, from, m);
  }

  /** The state after `n` rounds holds at every position what is traced to it. */
  ghost predicate Traced(t: Trace, m: Mixing, n: nat) {
    m.j == Before(t, n) && forall p: uint8 :: m.s[p] == Held(t, p, n)
  }

  lemma {:induction false} OneRound(key: Key, t: Trace, before: Mixing, i: uint8, after: Mixing)
    requires IsTrace(key, t) && Traced(t, before, i)
    requires after.j == AsUint8(before.j as int + before.s[i] + key[i % 32])
    requires after.s == Swap(before.s, i, after.j)
    ensures Traced(t, after, i + 1)
  {
    MetIsHeld(key, t, i);
    assert Fits(key, t, i) && before.s[i] == t(i).met;
    assert after.j == t(i).path;
  }

  lemma {:induction false} SetupIs(key: Key, t: Trace, n: nat)
    requires IsTrace(key, t) && n <= 256
    ensures Traced(t, KeySetup(key, n), n)
    decreases n
  {
    if n > 0 {
      SetupIs(key, t, n - 1);
      OneRound(key, t, KeySetup(key, n - 1), n - 1, KeySetup(key, n));
    }
  }

  /** A position that no later round touches holds what its own round moved there. */
  lemma {:induction false} Moved(t: Trace, p: nat, n: nat)
    requires p < n <= 256 && t(p).path != p && Clear(t, p, p + 1, n)
    ensures Held(t, p, n) == Held(t, t(p).path, p)
  {
    Untouched(t, p, p + 1, n);
  }

  /** Or what the last round that hit it put there. */
  lemma {:induction false} Hit(t: Trace, p: int, w: nat, n: nat)
    requires w < n <= 256 && t(w).path == p && Clear(t, p, w + 1, n) && !(w < p < n)
    ensures Held(t, p, n) == t(w).met
  {
    Untouched(t, p, w + 1, n);
  }

  ghost predicate Sparing(t: Trace) {
    forall r | 0 <= r < 256 :: Spares(r, t(r).path)
  }

  lemma {:induction false} First(t: Trace)
    requires Sparing(t) && t(1).path == 152 && t(152).path == 148 && t(148).path == t(76).path == 190
    requires t(228).path == t(186).path == 157
    ensures Held(t, 1, 256) == 152 && Held(t, 152, 256) == t(76).met && Held(t, 228, 256) == t(186).met
  {
    Moved(t, 1, 256);
    Untouched(t, 152, 0, 1);
    Moved(t, 152, 256);
    Moved(t, 148, 152);
    Hit(t, 190, 76, 148);
    Moved(t, 228, 256);
    Hit(t, 157, 186, 228);
  }

  lemma {:induction false} Second(t: Trace)
    requires Sparing(t) && t(2).path == 240 && t(136).path == 253 && t(237).path == 109 && t(109).path == 200
    ensures Held(t, 2, 256) == 240 && Held(t, 136, 256) == 253 && Held(t, 237, 256) == 200
  {
    Moved(t, 2, 256);
    Untouched(t, 240, 0, 2);
    Moved(t, 136, 256);
    Untouched(t, 253, 0, 136);
    Moved(t, 237, 256);
    Moved(t, 109, 237);
    Untouched(t, 200, 0, 109);
  }

  lemma {:induction false} Third(t: Trace)
    requires Sparing(t) && t(91).path == 3 && t(227).path == 137 && t(137).path == t(57).path == 188
    requires t(152).path == 148
    ensures Held(t, 3, 256) == t(91).met && Held(t, 227, 256) == t(57).met && Held(t, 148, 256) == t(152).met
  {
    Hit(t, 3, 91, 256);
    Moved(t, 227, 256);
    Moved(t, 137, 227);
    Hit(t, 188, 57, 137);
    Hit(t, 148, 152, 256);
  }

  /** What the setup leaves at the nine positions that three bytes of output read. */
  ghost predicate Arrives(s: SBox) {
    && s[1] == 152 && s[152] == 76 && s[228] == 31
    && s[2] == 240 && s[136] == 253 && s[237] == 200
    && s[3] == 91 && s[227] == 57 && s[148] == 1
  }

  /** What a trace has to say of the rounds that reach those positions. */
  ghost predicate Reaches(t: Trace) {
    && t(1).path == 152 && t(152).path == 148 && t(148).path == t(76).path == 190 && t(76).met == 76
    && t(228).path == t(186).path == 157 && t(186).met == 31
    && t(2).path == 240 && t(136).path == 253 && t(237).path == 109 && t(109).path == 200
    && t(91) == Move(3, 91, t(91).last) && t(227).path == 137 && t(137).path == t(57).path == 188
    && t(57).met == 57 && t(152).met == 1
  }

  lemma {:induction false} SetupArrives(key: Key, t: Trace)
    requires IsTrace(key, t) && Reaches(t)
    ensures Arrives(KeySetup(key, 256).s)
  {
    SetupIs(key, t, 256);
    assert Sparing(t) by {
      forall r | 0 <= r < 256
        ensures Spares(r, t(r).path)
      {
        assert Fits(key, t, r);
      }
    }
    First(t);
    Second(t);
    Third(t);
  }

  // ---- The record under the master key -------------------------------------------------------

  // The record, 16 rounds to a row.

  function Row0(c: int): Move {
    match c
    case 0 => Move(78, 0, 0) case 1 => Move(152, 1, 1) case 2 => Move(240, 2, 2) case 3 => Move(82, 3, 3)
    case 4 => Move(134, 4, 4) case 5 => Move(193, 5, 5) case 6 => Move(247, 6, 6) case 7 => Move(52, 7, 7)
    case 8 => Move(109, 8, 8) case 9 => Move(172, 9, 9) case 10 => Move(21, 10, 10) case 11 => Move(118, 11, 11)
    case 12 => Move(179, 12, 12) case 13 => Move(240, 13, 13) case 14 => Move(93, 14, 14) case _ => Move(157, 15, 15)
  }

  function Row1(c: int): Move {
    match c
    case 0 => Move(215, 16, 16) case 1 => Move(33, 17, 17) case 2 => Move(86, 18, 18) case 3 => Move(156, 19, 19)
    case 4 => Move(209, 20, 20) case 5 => Move(15, 10, 10) case 6 => Move(73, 22, 22) case 7 => Move(150, 23, 23)
    case 8 => Move(217, 24, 24) case 9 => Move(38, 25, 25) case 10 => Move(178, 26, 26) case 11 => Move(50, 27, 27)
    case 12 => Move(193, 28, 28) case 13 => Move(11, 29, 29) case 14 => Move(104, 30, 30) case _ => Move(186, 31, 31)
  }

  function Row2(c: int): Move {
    match c
    case 0 => Move(40, 32, 32) case 1 => Move(130, 17, 17) case 2 => Move(250, 34, 34) case 3 => Move(124, 35, 35)
    case 4 => Move(208, 36, 36) case 5 => Move(43, 37, 37) case 6 => Move(116, 25, 25) case 7 => Move(209, 39, 39)
    case 8 => Move(34, 32, 32) case 9 => Move(129, 41, 41) case 10 => Move(10, 42, 42) case 11 => Move(133, 37, 37)
    case 12 => Move(226, 44, 44) case 13 => Move(63, 45, 45) case 14 => Move(204, 46, 46) case _ => Move(44, 47, 47)
  }

  function Row3(c: int): Move {
    match c
    case 0 => Move(134, 48, 48) case 1 => Move(240, 49, 49) case 2 => Move(46, 27, 27) case 3 => Move(148, 51, 51)
    case 4 => Move(188, 7, 7) case 5 => Move(37, 53, 53) case 6 => Move(127, 54, 54) case 7 => Move(236, 55, 55)
    case 8 => Move(79, 56, 56) case 9 => Move(188, 57, 57) case 10 => Move(104, 58, 58) case 11 => Move(8, 59, 59)
    case 12 => Move(183, 60, 60) case 13 => Move(33, 61, 61) case 14 => Move(158, 62, 62) case _ => Move(254, 45, 45)
  }

  function Row4(c: int): Move {
    match c
    case 0 => Move(140, 64, 64) case 1 => Move(22, 65, 65) case 2 => Move(174, 66, 66) case 3 => Move(80, 67, 67)
    case 4 => Move(196, 68, 68) case 5 => Move(63, 69, 69) case 6 => Move(181, 70, 70) case 7 => Move(50, 71, 71)
    case 8 => Move(171, 72, 72) case 9 => Move(247, 22, 22) case 10 => Move(160, 74, 74) case 11 => Move(65, 75, 75)
    case 12 => Move(190, 76, 76) case 13 => Move(59, 77, 77) case 14 => Move(154, 0, 0) case _ => Move(3, 56, 56)
  }

  function Row5(c: int): Move {
    match c
    case 0 => Move(112, 67, 67) case 1 => Move(250, 81, 81) case 2 => Move(32, 3, 3) case 3 => Move(166, 83, 83)
    case 4 => Move(27, 84, 84) case 5 => Move(164, 85, 85) case 6 => Move(218, 18, 18) case 7 => Move(103, 87, 87)
    case 8 => Move(234, 88, 88) case 9 => Move(119, 89, 89) case 10 => Move(67, 90, 90) case 11 => Move(3, 91, 91)
    case 12 => Move(210, 92, 92) case 13 => Move(13, 14, 14) case 14 => Move(170, 94, 94) case _ => Move(60, 95, 95)
  }

  function Row6(c: int): Move {
    match c
    case 0 => Move(234, 96, 96) case 1 => Move(148, 97, 97) case 2 => Move(76, 98, 98) case 3 => Move(14, 99, 99)
    case 4 => Move(162, 100, 100) case 5 => Move(61, 101, 101) case 6 => Move(211, 102, 102)
    case 7 => Move(96, 87, 87) case 8 => Move(203, 58, 58) case 9 => Move(106, 105, 105) case 10 => Move(50, 105, 105)
    case 11 => Move(243, 107, 107) case 12 => Move(144, 108, 108) case 13 => Move(200, 8, 8)
    case 14 => Move(149, 110, 110) case _ => Move(53, 111, 111)
  }

  function Row7(c: int): Move {
    match c
    case 0 => Move(162, 67, 80) case 1 => Move(76, 113, 113) case 2 => Move(225, 114, 114)
    case 3 => Move(135, 115, 115) case 4 => Move(193, 25, 38) case 5 => Move(106, 117, 117)
    case 6 => Move(153, 11, 11) case 7 => Move(40, 89, 89) case 8 => Move(203, 120, 120) case 9 => Move(120, 121, 121)
    case 10 => Move(100, 122, 122) case 11 => Move(68, 123, 123) case 12 => Move(218, 35, 35)
    case 13 => Move(132, 125, 125) case 14 => Move(65, 126, 126) case _ => Move(170, 54, 54)
  }

  function Row8(c: int): Move {
    match c
    case 0 => Move(120, 128, 128) case 1 => Move(234, 41, 41) case 2 => Move(81, 17, 33) case 3 => Move(51, 131, 131)
    case 4 => Move(224, 125, 125) case 5 => Move(59, 37, 43) case 6 => Move(155, 48, 48) case 7 => Move(68, 115, 115)
    case 8 => Move(253, 136, 136) case 9 => Move(188, 137, 137) case 10 => Move(165, 138, 138)
    case 11 => Move(134, 139, 139) case 12 => Move(247, 64, 64) case 13 => Move(180, 141, 141)
    case 14 => Move(161, 142, 142) case _ => Move(97, 143, 143)
  }

  function Row9(c: int): Move {
    match c
    case 0 => Move(247, 108, 108) case 1 => Move(193, 145, 145) case 2 => Move(118, 146, 146)
    case 3 => Move(60, 147, 147) case 4 => Move(190, 97, 97) case 5 => Move(96, 110, 110) case 6 => Move(155, 23, 23)
    case 7 => Move(104, 151, 151) case 8 => Move(148, 1, 1) case 9 => Move(211, 11, 118) case 10 => Move(69, 0, 78)
    case 11 => Move(193, 23, 150) case 12 => Move(71, 19, 19) case 13 => Move(131, 15, 15) case 14 => Move(0, 62, 62)
    case _ => Move(210, 159, 159)
  }

  function Row10(c: int): Move {
    match c
    case 0 => Move(106, 74, 74) case 1 => Move(65, 142, 142) case 2 => Move(218, 67, 112)
    case 3 => Move(220, 163, 163) case 4 => Move(97, 85, 85) case 5 => Move(33, 138, 138) case 6 => Move(164, 83, 83)
    case 7 => Move(129, 167, 167) case 8 => Move(90, 168, 168) case 9 => Move(57, 169, 169)
    case 10 => Move(206, 54, 127) case 11 => Move(108, 72, 72) case 12 => Move(166, 9, 9)
    case 13 => Move(131, 173, 173) case 14 => Move(36, 66, 66) case _ => Move(4, 175, 175)
  }

  function Row11(c: int): Move {
    match c
    case 0 => Move(222, 176, 176) case 1 => Move(200, 177, 177) case 2 => Move(5, 26, 26) case 3 => Move(68, 12, 12)
    case 4 => Move(242, 141, 141) case 5 => Move(108, 70, 70) case 6 => Move(70, 182, 182) case 7 => Move(184, 60, 60)
    case 8 => Move(31, 60, 183) case 9 => Move(12, 185, 185) case 10 => Move(157, 31, 31)
    case 11 => Move(189, 187, 187) case 12 => Move(185, 137, 137) case 13 => Move(161, 187, 187)
    case 14 => Move(65, 97, 148) case _ => Move(51, 191, 191)
  }

  function Row12(c: int): Move {
    match c
    case 0 => Move(65, 192, 192) case 1 => Move(161, 23, 155) case 2 => Move(185, 194, 194)
    case 3 => Move(219, 195, 195) case 4 => Move(79, 68, 68) case 5 => Move(74, 197, 197) case 6 => Move(64, 198, 198)
    case 7 => Move(61, 199, 199) case 8 => Move(31, 177, 177) case 9 => Move(30, 201, 201)
    case 10 => Move(71, 202, 202) case 11 => Move(21, 120, 120) case 12 => Move(116, 46, 46)
    case 13 => Move(113, 205, 205) case 14 => Move(6, 54, 170) case _ => Move(6, 207, 207)
  }

  function Row13(c: int): Move {
    match c
    case 0 => Move(84, 36, 36) case 1 => Move(180, 39, 39) case 2 => Move(118, 159, 159) case 3 => Move(180, 11, 153)
    case 4 => Move(169, 212, 212) case 5 => Move(178, 213, 213) case 6 => Move(172, 214, 214)
    case 7 => Move(242, 16, 16) case 8 => Move(245, 216, 216) case 9 => Move(65, 24, 24) case 10 => Move(246, 67, 162)
    case 11 => Move(30, 195, 195) case 12 => Move(52, 163, 163) case 13 => Move(62, 221, 221)
    case 14 => Move(45, 176, 176) case _ => Move(63, 223, 223)
  }

  function Row14(c: int): Move {
    match c
    case 0 => Move(10, 125, 132) case 1 => Move(197, 114, 114) case 2 => Move(71, 44, 44)
    case 3 => Move(137, 227, 227) case 4 => Move(157, 228, 228) case 5 => Move(184, 229, 229)
    case 6 => Move(206, 230, 230) case 7 => Move(235, 231, 231) case 8 => Move(4, 232, 232)
    case 9 => Move(35, 233, 233) case 10 => Move(171, 41, 129) case 11 => Move(232, 231, 231)
    case 12 => Move(80, 55, 55) case 13 => Move(109, 237, 237) case 14 => Move(186, 238, 238)
    case _ => Move(218, 239, 239)
  }

  function Row15(c: int): Move {
    match c
    case 0 => Move(53, 49, 49) case 1 => Move(95, 241, 241) case 2 => Move(146, 16, 215) case 3 => Move(48, 107, 107)
    case 4 => Move(69, 244, 244) case 5 => Move(81, 216, 216) case 6 => Move(184, 67, 218)
    case 7 => Move(90, 108, 144) case 8 => Move(125, 248, 248) case 9 => Move(170, 249, 249)
    case 10 => Move(109, 81, 81) case 11 => Move(205, 251, 251) case 12 => Move(60, 252, 252)
    case 13 => Move(241, 136, 136) case 14 => Move(93, 45, 63) case _ => Move(143, 255, 255)
  }

  function Record(r: int): Move {
    var c := r % 16;
    match r / 16
    case 0 => Row0(c) case 1 => Row1(c) case 2 => Row2(c) case 3 => Row3(c)
    case 4 => Row4(c) case 5 => Row5(c) case 6 => Row6(c) case 7 => Row7(c)
    case 8 => Row8(c) case 9 => Row9(c) case 10 => Row10(c) case 11 => Row11(c)
    case 12 => Row12(c) case 13 => Row13(c) case 14 => Row14(c) case _ => Row15(c)
  }

  /** The master key, byte by byte. */
  function KeyAt(c: int): int {
    match c
    case 0 => 0x4E case 1 => 0x49 case 2 => 0x56 case 3 => 0x5F case 4 => 0x30 case 5 => 0x36 case 6 => 0x30
    case 7 => 0x36 case 8 => 0x31 case 9 => 0x36 case 10 => 0x5F case 11 => 0x56 case 12 => 0x31 case 13 => 0x30
    case 14 => 0x5F case 15 => 0x31 case 16 => 0x2A case 17 => 0x39 case 18 => 0x23 case 19 => 0x33 case 20 => 0x21
    case 21 => 0x34 case 22 => 0x24 case 23 => 0x36 case 24 => 0x2B case 25 => 0x34 case 26 => 0x72 case 27 => 0x65
    case 28 => 0x73 case 29 => 0x2D case 30 => 0x3F case _ => 0x33
  }

  lemma {:induction false} KeyIs()
    ensures forall c | 0 <= c < 32 :: MASTER_KEY[c] == KeyAt(c)
  {
  }

  /** `p` stands for what is checked, so that one round is looked at without the others. */
  ghost predicate Follows(t: Trace, p: int -> bool) {
    forall r {:trigger Fits(MASTER_KEY, t, r)} :: Fits(MASTER_KEY, t, r) ==> p(r)
  }

  /** One round, with the numbers it works with written out. */
  lemma {:induction false} Step(t: Trace, p: int -> bool, r: int, before: int, path: int, met: int, last: int)
    requires Follows(t, p)
    requires Before(t, r) == before
    requires t(r) == Move(path, met, last)
    requires path == (before + met + KeyAt(r % 32)) % 256
    requires r < path ==> r <= t(path).last < path
    requires if last < r then 0 <= last && t(last).path == r && t(last).met == met else last == r == met
    requires Spares(r, path)
    ensures p(r)
  {
    KeyIs();
    assert Fits(MASTER_KEY, t, r);
  }

  /** Rounds `a` up to `n`. */
  predicate Stretch(p: int -> bool, a: int, n: int)
    decreases n - a
  {
    a < n ==> p(a) && Stretch(p, a + 1, n)
  }

  lemma {:induction false} Within(p: int -> bool, a: int, n: int, r: int)
    requires Stretch(p, a, n) && a <= r < n
    ensures p(r)
    decreases r - a
  {
    if a < r {
      Within(p, a + 1, n, r);
    }
  }

  lemma {:induction false} Rounds0(p: int -> bool)
    requires Follows(Record, p)
    ensures Stretch(p, 0, 8)
  {
    Step(Record, p, 0, 0, 78, 0, 0); Step(Record, p, 1, 78, 152, 1, 1); Step(Record, p, 2, 152, 240, 2, 2);
    Step(Record, p, 3, 240, 82, 3, 3); Step(Record, p, 4, 82, 134, 4, 4); Step(Record, p, 5, 134, 193, 5, 5);
    Step(Record, p, 6, 193, 247, 6, 6); Step(Record, p, 7, 247, 52, 7, 7);
  }

  lemma {:induction false} Rounds1(p: int -> bool)
    requires Follows(Record, p)
    ensures Stretch(p, 8, 16)
  {
    Step(Record, p, 8, 52, 109, 8, 8); Step(Record, p, 9, 109, 172, 9, 9); Step(Record, p, 10, 172, 21, 10, 10);
    Step(Record, p, 11, 21, 118, 11, 11); Step(Record, p, 12, 118, 179, 12, 12);
    Step(Record, p, 13, 179, 240, 13, 13); Step(Record, p, 14, 240, 93, 14, 14); Step(Record, p, 15, 93, 157, 15, 15);
  }

  lemma {:induction false} Rounds2(p: int -> bool)
    requires Follows(Record, p)
    ensures Stretch(p, 16, 24)
  {
    Step(Record, p, 16, 157, 215, 16, 16); Step(Record, p, 17, 215, 33, 17, 17); Step(Record, p, 18, 33, 86, 18, 18);
    Step(Record, p, 19, 86, 156, 19, 19); Step(Record, p, 20, 156, 209, 20, 20); Step(Record, p, 21, 209, 15, 10, 10);
    Step(Record, p, 22, 15, 73, 22, 22); Step(Record, p, 23, 73, 150, 23, 23);
  }

  lemma {:induction false} Rounds3(p: int -> bool)
    requires Follows(Record, p)
    ensures Stretch(p, 24, 32)
  {
    Step(Record, p, 24, 150, 217, 24, 24); Step(Record, p, 25, 217, 38, 25, 25); Step(Record, p, 26, 38, 178, 26, 26);
    Step(Record, p, 27, 178, 50, 27, 27); Step(Record, p, 28, 50, 193, 28, 28); Step(Record, p, 29, 193, 11, 29, 29);
    Step(Record, p, 30, 11, 104, 30, 30); Step(Record, p, 31, 104, 186, 31, 31);
  }

  lemma {:induction false} Rounds4(p: int -> bool)
    requires Follows(Record, p)
    ensures Stretch(p, 32, 40)
  {
    Step(Record, p, 32, 186, 40, 32, 32); Step(Record, p, 33, 40, 130, 17, 17); Step(Record, p, 34, 130, 250, 34, 34);
    Step(Record, p, 35, 250, 124, 35, 35); Step(Record, p, 36, 124, 208, 36, 36);
    Step(Record, p, 37, 208, 43, 37, 37); Step(Record, p, 38, 43, 116, 25, 25); Step(Record, p, 39, 116, 209, 39, 39);
  }

  lemma {:induction false} Rounds5(p: int -> bool)
    requires Follows(Record, p)
    ensures Stretch(p, 40, 48)
  {
    Step(Record, p, 40, 209, 34, 32, 32); Step(Record, p, 41, 34, 129, 41, 41); Step(Record, p, 42, 129, 10, 42, 42);
    Step(Record, p, 43, 10, 133, 37, 37); Step(Record, p, 44, 133, 226, 44, 44); Step(Record, p, 45, 226, 63, 45, 45);
    Step(Record, p, 46, 63, 204, 46, 46); Step(Record, p, 47, 204, 44, 47, 47);
  }

  lemma {:induction false} Rounds6(p: int -> bool)
    requires Follows(Record, p)
    ensures Stretch(p, 48, 56)
  {
    Step(Record, p, 48, 44, 134, 48, 48); Step(Record, p, 49, 134, 240, 49, 49); Step(Record, p, 50, 240, 46, 27, 27);
    Step(Record, p, 51, 46, 148, 51, 51); Step(Record, p, 52, 148, 188, 7, 7); Step(Record, p, 53, 188, 37, 53, 53);
    Step(Record, p, 54, 37, 127, 54, 54); Step(Record, p, 55, 127, 236, 55, 55);
  }

  lemma {:induction false} Rounds7(p: int -> bool)
    requires Follows(Record, p)
    ensures Stretch(p, 56, 64)
  {
    Step(Record, p, 56, 236, 79, 56, 56); Step(Record, p, 57, 79, 188, 57, 57); Step(Record, p, 58, 188, 104, 58, 58);
    Step(Record, p, 59, 104, 8, 59, 59); Step(Record, p, 60, 8, 183, 60, 60); Step(Record, p, 61, 183, 33, 61, 61);
    Step(Record, p, 62, 33, 158, 62, 62); Step(Record, p, 63, 158, 254, 45, 45);
  }

  lemma {:induction false} Rounds8(p: int -> bool)
    requires Follows(Record, p)
    ensures Stretch(p, 64, 72)
  {
    Step(Record, p, 64, 254, 140, 64, 64); Step(Record, p, 65, 140, 22, 65, 65); Step(Record, p, 66, 22, 174, 66, 66);
    Step(Record, p, 67, 174, 80, 67, 67); Step(Record, p, 68, 80, 196, 68, 68); Step(Record, p, 69, 196, 63, 69, 69);
    Step(Record, p, 70, 63, 181, 70, 70); Step(Record, p, 71, 181, 50, 71, 71);
  }

  lemma {:induction false} Rounds9(p: int -> bool)
    requires Follows(Record, p)
    ensures Stretch(p, 72, 80)
  {
    Step(Record, p, 72, 50, 171, 72, 72); Step(Record, p, 73, 171, 247, 22, 22);
    Step(Record, p, 74, 247, 160, 74, 74); Step(Record, p, 75, 160, 65, 75, 75); Step(Record, p, 76, 65, 190, 76, 76);
    Step(Record, p, 77, 190, 59, 77, 77); Step(Record, p, 78, 59, 154, 0, 0); Step(Record, p, 79, 154, 3, 56, 56);
  }

  lemma {:induction false} Rounds10(p: int -> bool)
    requires Follows(Record, p)
    ensures Stretch(p, 80, 88)
  {
    Step(Record, p, 80, 3, 112, 67, 67); Step(Record, p, 81, 112, 250, 81, 81); Step(Record, p, 82, 250, 32, 3, 3);
    Step(Record, p, 83, 32, 166, 83, 83); Step(Record, p, 84, 166, 27, 84, 84); Step(Record, p, 85, 27, 164, 85, 85);
    Step(Record, p, 86, 164, 218, 18, 18); Step(Record, p, 87, 218, 103, 87, 87);
  }

  lemma {:induction false} Rounds11(p: int -> bool)
    requires Follows(Record, p)
    ensures Stretch(p, 88, 96)
  {
    Step(Record, p, 88, 103, 234, 88, 88); Step(Record, p, 89, 234, 119, 89, 89);
    Step(Record, p, 90, 119, 67, 90, 90); Step(Record, p, 91, 67, 3, 91, 91); Step(Record, p, 92, 3, 210, 92, 92);
    Step(Record, p, 93, 210, 13, 14, 14); Step(Record, p, 94, 13, 170, 94, 94); Step(Record, p, 95, 170, 60, 95, 95);
  }

  lemma {:induction false} Rounds12(p: int -> bool)
    requires Follows(Record, p)
    ensures Stretch(p, 96, 104)
  {
    Step(Record, p, 96, 60, 234, 96, 96); Step(Record, p, 97, 234, 148, 97, 97); Step(Record, p, 98, 148, 76, 98, 98);
    Step(Record, p, 99, 76, 14, 99, 99); Step(Record, p, 100, 14, 162, 100, 100);
    Step(Record, p, 101, 162, 61, 101, 101); Step(Record, p, 102, 61, 211, 102, 102);
    Step(Record, p, 103, 211, 96, 87, 87);
  }

  lemma {:induction false} Rounds13(p: int -> bool)
    requires Follows(Record, p)
    ensures Stretch(p, 104, 112)
  {
    Step(Record, p, 104, 96, 203, 58, 58); Step(Record, p, 105, 203, 106, 105, 105);
    Step(Record, p, 106, 106, 50, 105, 105); Step(Record, p, 107, 50, 243, 107, 107);
    Step(Record, p, 108, 243, 144, 108, 108); Step(Record, p, 109, 144, 200, 8, 8);
    Step(Record, p, 110, 200, 149, 110, 110); Step(Record, p, 111, 149, 53, 111, 111);
  }

  lemma {:induction false} Rounds14(p: int -> bool)
    requires Follows(Record, p)
    ensures Stretch(p, 112, 120)
  {
    Step(Record, p, 112, 53, 162, 67, 80); Step(Record, p, 113, 162, 76, 113, 113);
    Step(Record, p, 114, 76, 225, 114, 114); Step(Record, p, 115, 225, 135, 115, 115);
    Step(Record, p, 116, 135, 193, 25, 38); Step(Record, p, 117, 193, 106, 117, 117);
    Step(Record, p, 118, 106, 153, 11, 11); Step(Record, p, 119, 153, 40, 89, 89);
  }

  lemma {:induction false} Rounds15(p: int -> bool)
    requires Follows(Record, p)
    ensures Stretch(p, 120, 128)
  {
    Step(Record, p, 120, 40, 203, 120, 120); Step(Record, p, 121, 203, 120, 121, 121);
    Step(Record, p, 122, 120, 100, 122, 122); Step(Record, p, 123, 100, 68, 123, 123);
    Step(Record, p, 124, 68, 218, 35, 35); Step(Record, p, 125, 218, 132, 125, 125);
    Step(Record, p, 126, 132, 65, 126, 126); Step(Record, p, 127, 65, 170, 54, 54);
  }

  lemma {:induction false} Rounds16(p: int -> bool)
    requires Follows(Record, p)
    ensures Stretch(p, 128, 136)
  {
    Step(Record, p, 128, 170, 120, 128, 128); Step(Record, p, 129, 120, 234, 41, 41);
    Step(Record, p, 130, 234, 81, 17, 33); Step(Record, p, 131, 81, 51, 131, 131);
    Step(Record, p, 132, 51, 224, 125, 125); Step(Record, p, 133, 224, 59, 37, 43);
    Step(Record, p, 134, 59, 155, 48, 48); Step(Record, p, 135, 155, 68, 115, 115);
  }

  lemma {:induction false} Rounds17(p: int -> bool)
    requires Follows(Record, p)
    ensures Stretch(p, 136, 144)
  {
    Step(Record, p, 136, 68, 253, 136, 136); Step(Record, p, 137, 253, 188, 137, 137);
    Step(Record, p, 138, 188, 165, 138, 138); Step(Record, p, 139, 165, 134, 139, 139);
    Step(Record, p, 140, 134, 247, 64, 64); Step(Record, p, 141, 247, 180, 141, 141);
    Step(Record, p, 142, 180, 161, 142, 142); Step(Record, p, 143, 161, 97, 143, 143);
  }

  lemma {:induction false} Rounds18(p: int -> bool)
    requires Follows(Record, p)
    ensures Stretch(p, 144, 152)
  {
    Step(Record, p, 144, 97, 247, 108, 108); Step(Record, p, 145, 247, 193, 145, 145);
    Step(Record, p, 146, 193, 118, 146, 146); Step(Record, p, 147, 118, 60, 147, 147);
    Step(Record, p, 148, 60, 190, 97, 97); Step(Record, p, 149, 190, 96, 110, 110);
    Step(Record, p, 150, 96, 155, 23, 23); Step(Record, p, 151, 155, 104, 151, 151);
  }

  lemma {:induction false} Rounds19(p: int -> bool)
    requires Follows(Record, p)
    ensures Stretch(p, 152, 160)
  {
    Step(Record, p, 152, 104, 148, 1, 1); Step(Record, p, 153, 148, 211, 11, 118);
    Step(Record, p, 154, 211, 69, 0, 78); Step(Record, p, 155, 69, 193, 23, 150);
    Step(Record, p, 156, 193, 71, 19, 19); Step(Record, p, 157, 71, 131, 15, 15);
    Step(Record, p, 158, 131, 0, 62, 62); Step(Record, p, 159, 0, 210, 159, 159);
  }

  lemma {:induction false} Rounds20(p: int -> bool)
    requires Follows(Record, p)
    ensures Stretch(p, 160, 168)
  {
    Step(Record, p, 160, 210, 106, 74, 74); Step(Record, p, 161, 106, 65, 142, 142);
    Step(Record, p, 162, 65, 218, 67, 112); Step(Record, p, 163, 218, 220, 163, 163);
    Step(Record, p, 164, 220, 97, 85, 85); Step(Record, p, 165, 97, 33, 138, 138);
    Step(Record, p, 166, 33, 164, 83, 83); Step(Record, p, 167, 164, 129, 167, 167);
  }

  lemma {:induction false} Rounds21(p: int -> bool)
    requires Follows(Record, p)
    ensures Stretch(p, 168, 176)
  {
    Step(Record, p, 168, 129, 90, 168, 168); Step(Record, p, 169, 90, 57, 169, 169);
    Step(Record, p, 170, 57, 206, 54, 127); Step(Record, p, 171, 206, 108, 72, 72);
    Step(Record, p, 172, 108, 166, 9, 9); Step(Record, p, 173, 166, 131, 173, 173);
    Step(Record, p, 174, 131, 36, 66, 66); Step(Record, p, 175, 36, 4, 175, 175);
  }

  lemma {:induction false} Rounds22(p: int -> bool)
    requires Follows(Record, p)
    ensures Stretch(p, 176, 184)
  {
    Step(Record, p, 176, 4, 222, 176, 176); Step(Record, p, 177, 222, 200, 177, 177);
    Step(Record, p, 178, 200, 5, 26, 26); Step(Record, p, 179, 5, 68, 12, 12);
    Step(Record, p, 180, 68, 242, 141, 141); Step(Record, p, 181, 242, 108, 70, 70);
    Step(Record, p, 182, 108, 70, 182, 182); Step(Record, p, 183, 70, 184, 60, 60);
  }

  lemma {:induction false} Rounds23(p: int -> bool)
    requires Follows(Record, p)
    ensures Stretch(p, 184, 192)
  {
    Step(Record, p, 184, 184, 31, 60, 183); Step(Record, p, 185, 31, 12, 185, 185);
    Step(Record, p, 186, 12, 157, 31, 31); Step(Record, p, 187, 157, 189, 187, 187);
    Step(Record, p, 188, 189, 185, 137, 137); Step(Record, p, 189, 185, 161, 187, 187);
    Step(Record, p, 190, 161, 65, 97, 148); Step(Record, p, 191, 65, 51, 191, 191);
  }

  lemma {:induction false} Rounds24(p: int -> bool)
    requires Follows(Record, p)
    ensures Stretch(p, 192, 200)
  {
    Step(Record, p, 192, 51, 65, 192, 192); Step(Record, p, 193, 65, 161, 23, 155);
    Step(Record, p, 194, 161, 185, 194, 194); Step(Record, p, 195, 185, 219, 195, 195);
    Step(Record, p, 196, 219, 79, 68, 68); Step(Record, p, 197, 79, 74, 197, 197);
    Step(Record, p, 198, 74, 64, 198, 198); Step(Record, p, 199, 64, 61, 199, 199);
  }

  lemma {:induction false} Rounds25(p: int -> bool)
    requires Follows(Record, p)
    ensures Stretch(p, 200, 208)
  {
    Step(Record, p, 200, 61, 31, 177, 177); Step(Record, p, 201, 31, 30, 201, 201);
    Step(Record, p, 202, 30, 71, 202, 202); Step(Record, p, 203, 71, 21, 120, 120);
    Step(Record, p, 204, 21, 116, 46, 46); Step(Record, p, 205, 116, 113, 205, 205);
    Step(Record, p, 206, 113, 6, 54, 170); Step(Record, p, 207, 6, 6, 207, 207);
  }

  lemma {:induction false} Rounds26(p: int -> bool)
    requires Follows(Record, p)
    ensures Stretch(p, 208, 216)
  {
    Step(Record, p, 208, 6, 84, 36, 36); Step(Record, p, 209, 84, 180, 39, 39);
    Step(Record, p, 210, 180, 118, 159, 159); Step(Record, p, 211, 118, 180, 11, 153);
    Step(Record, p, 212, 180, 169, 212, 212); Step(Record, p, 213, 169, 178, 213, 213);
    Step(Record, p, 214, 178, 172, 214, 214); Step(Record, p, 215, 172, 242, 16, 16);
  }

  lemma {:induction false} Rounds27(p: int -> bool)
    requires Follows(Record, p)
    ensures Stretch(p, 216, 224)
  {
    Step(Record, p, 216, 242, 245, 216, 216); Step(Record, p, 217, 245, 65, 24, 24);
    Step(Record, p, 218, 65, 246, 67, 162); Step(Record, p, 219, 246, 30, 195, 195);
    Step(Record, p, 220, 30, 52, 163, 163); Step(Record, p, 221, 52, 62, 221, 221);
    Step(Record, p, 222, 62, 45, 176, 176); Step(Record, p, 223, 45, 63, 223, 223);
  }

  lemma {:induction false} Rounds28(p: int -> bool)
    requires Follows(Record, p)
    ensures Stretch(p, 224, 232)
  {
    Step(Record, p, 224, 63, 10, 125, 132); Step(Record, p, 225, 10, 197, 114, 114);
    Step(Record, p, 226, 197, 71, 44, 44); Step(Record, p, 227, 71, 137, 227, 227);
    Step(Record, p, 228, 137, 157, 228, 228); Step(Record, p, 229, 157, 184, 229, 229);
    Step(Record, p, 230, 184, 206, 230, 230); Step(Record, p, 231, 206, 235, 231, 231);
  }

  lemma {:induction false} Rounds29(p: int -> bool)
    requires Follows(Record, p)
    ensures Stretch(p, 232, 240)
  {
    Step(Record, p, 232, 235, 4, 232, 232); Step(Record, p, 233, 4, 35, 233, 233);
    Step(Record, p, 234, 35, 171, 41, 129); Step(Record, p, 235, 171, 232, 231, 231);
    Step(Record, p, 236, 232, 80, 55, 55); Step(Record, p, 237, 80, 109, 237, 237);
    Step(Record, p, 238, 109, 186, 238, 238); Step(Record, p, 239, 186, 218, 239, 239);
  }

  lemma {:induction false} Rounds30(p: int -> bool)
    requires Follows(Record, p)
    ensures Stretch(p, 240, 248)
  {
    Step(Record, p, 240, 218, 53, 49, 49); Step(Record, p, 241, 53, 95, 241, 241);
    Step(Record, p, 242, 95, 146, 16, 215); Step(Record, p, 243, 146, 48, 107, 107);
    Step(Record, p, 244, 48, 69, 244, 244); Step(Record, p, 245, 69, 81, 216, 216);
    Step(Record, p, 246, 81, 184, 67, 218); Step(Record, p, 247, 184, 90, 108, 144);
  }

  lemma {:induction false} Rounds31(p: int -> bool)
    requires Follows(Record, p)
    ensures Stretch(p, 248, 256)
  {
    Step(Record, p, 248, 90, 125, 248, 248); Step(Record, p, 249, 125, 170, 249, 249);
    Step(Record, p, 250, 170, 109, 81, 81); Step(Record, p, 251, 109, 205, 251, 251);
    Step(Record, p, 252, 205, 60, 252, 252); Step(Record, p, 253, 60, 241, 136, 136);
    Step(Record, p, 254, 241, 93, 45, 63); Step(Record, p, 255, 93, 143, 255, 255);
  }

  lemma {:induction false} AllRounds(p: int -> bool, r: int)
    requires Follows(Record, p) && 0 <= r < 256
    ensures p(r)
  {
    match r / 8
    case 0 => Rounds0(p); Within(p, 0, 8, r);
    case 1 => Rounds1(p); Within(p, 8, 16, r);
    case 2 => Rounds2(p); Within(p, 16, 24, r);
    case 3 => Rounds3(p); Within(p, 24, 32, r);
    case 4 => Rounds4(p); Within(p, 32, 40, r);
    case 5 => Rounds5(p); Within(p, 40, 48, r);
    case 6 => Rounds6(p); Within(p, 48, 56, r);
    case 7 => Rounds7(p); Within(p, 56, 64, r);
    case 8 => Rounds8(p); Within(p, 64, 72, r);
    case 9 => Rounds9(p); Within(p, 72, 80, r);
    case 10 => Rounds10(p); Within(p, 80, 88, r);
    case 11 => Rounds11(p); Within(p, 88, 96, r);
    case 12 => Rounds12(p); Within(p, 96, 104, r);
    case 13 => Rounds13(p); Within(p, 104, 112, r);
    case 14 => Rounds14(p); Within(p, 112, 120, r);
    case 15 => Rounds15(p); Within(p, 120, 128, r);
    case 16 => Rounds16(p); Within(p, 128, 136, r);
    case 17 => Rounds17(p); Within(p, 136, 144, r);
    case 18 => Rounds18(p); Within(p, 144, 152, r);
    case 19 => Rounds19(p); Within(p, 152, 160, r);
    case 20 => Rounds20(p); Within(p, 160, 168, r);
    case 21 => Rounds21(p); Within(p, 168, 176, r);
    case 22 => Rounds22(p); Within(p, 176, 184, r);
    case 23 => Rounds23(p); Within(p, 184, 192, r);
    case 24 => Rounds24(p); Within(p, 192, 200, r);
    case 25 => Rounds25(p); Within(p, 200, 208, r);
    case 26 => Rounds26(p); Within(p, 208, 216, r);
    case 27 => Rounds27(p); Within(p, 216, 224, r);
    case 28 => Rounds28(p); Within(p, 224, 232, r);
    case 29 => Rounds29(p); Within(p, 232, 240, r);
    case 30 => Rounds30(p); Within(p, 240, 248, r);
    case _ => Rounds31(p); Within(p, 248, 256, r);
  }

  lemma {:induction false} RecordIsTrace()
    ensures IsTrace(MASTER_KEY, Record)
  {
    var p := r => Fits(MASTER_KEY, Record, r);
    forall r | 0 <= r < 256
      ensures Fits(MASTER_KEY, Record, r)
    {
      AllRounds(p, r);
    }
  }

  // ---- The vector ----------------------------------------------------------------------------

  lemma {:induction false} OutputsOf(s: SBox)
    requires Arrives(s)
    ensures var a := Advance(Generator(s, 0, 0)); var b := Advance(a);
            Output(a) == 0x1F && Output(b) == 0xC8 && Output(Advance(b)) == 0x01
  {
    var a := Advance(Generator(s, 0, 0));
    assert a == Generator(Swap(s, 1, 152), 1, 152);
    var b := Advance(a);
    assert b == Generator(Swap(a.s, 2, 136), 2, 136);
    assert Advance(b) == Generator(Swap(b.s, 3, 227), 3, 227);
  }

  lemma {:induction false} KeyBytesOf(key: bytes, s: SBox)
    requires 0 < |key| && s == KeySetup(key, 256).s && Arrives(s)
    ensures KeyByte(key, 0) == 0x1F && KeyByte(key, 1) == 0xC8 && KeyByte(key, 2) == 0x01
  {
    var g := Generator(s, 0, 0);
    assert GeneratorAfter(key, 0) == g;
    assert GeneratorAfter(key, 1) == Advance(g);
    assert GeneratorAfter(key, 2) == Advance(Advance(g));
    assert GeneratorAfter(key, 3) == Advance(Advance(Advance(g)));
    OutputsOf(s);
  }

  lemma {:induction false} StreamOf(key: bytes, data: bytes)
    requires 0 < |key| && |data| == 3
    requires KeyByte(key, 0) == 0x1F && KeyByte(key, 1) == 0xC8 && KeyByte(key, 2) == 0x01
    ensures Cipher(key, data) == [Xor(data[0], 0x1F), Xor(data[1], 0xC8), Xor(data[2], 0x01)]
  {
  }

  /** The published key stream: the first three bytes under the master key. */
  lemma {:induction false} KnownStream(data: bytes)
    requires |data| == 3
    ensures Cipher(MASTER_KEY, data) == [Xor(data[0], 0x1F), Xor(data[1], 0xC8), Xor(data[2], 0x01)]
  {
    RecordIsTrace();
    assert Reaches(Record);
    SetupArrives(MASTER_KEY, Record);
    KeyBytesOf(MASTER_KEY, KeySetup(MASTER_KEY, 256).s);
    StreamOf(MASTER_KEY, data);
  }

  lemma {:induction false} Masks()
    ensures Xor(0x00, 0x1F) == 0x1F && Xor(0x00, 0xC8) == 0xC8 && Xor(0x47, 0x01) == 0x46
  {
  }

  /** The published vector: 000047 under the master key is 1fc846. */
  lemma {:induction false} KnownCipher()
    ensures Cipher(MASTER_KEY, [0x00, 0x00, 0x47]) == [0x1F, 0xC8, 0x46]
  {
    KnownStream([0x00, 0x00, 0x47]);
    Masks();
  }
}
