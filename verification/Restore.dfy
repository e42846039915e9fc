/** What the pieces after the lines do: saved cursor, scroll region, cursor,
    pending wrap, pen, link, modes and title. */
module Restore {
  import opened Parser
  import opened Sequences
  import opened Terminal
  import opened Dispatch
  import opened Snapshots
  import opened Paint

  function WithModes(d: T, m: Modes): T { d.(modes := m) }

  function WithSets(d: T, cs: Charsets): T
    requires 0 <= cs.gl <= 1
  {
    d.(charsets := cs)
  }

  lemma RunCons(d: T, p: Piece, rest: seq<Piece>)
    ensures Run(d, [p] + rest) == Run(Do(d, p), rest)
  {
    hide Do;
    assert ([p] + rest)[1..] == rest;
  }

  /** A piece written under a condition, before the rest. */
  lemma DoWhen(d: T, c: bool, p: Piece, rest: seq<Piece>, d': T)
    requires if c then Do(d, p) == d' else d' == d
    ensures Run(d, When(c, p) + rest) == Run(d', rest)
    ensures Run(d, When(c, p)) == d'
  {
    hide Do, ScreenFits, Run;
    if c {
      RunCons(d, p, rest);
      Run1(d, p);
    } else {
      assert When(c, p) + rest == rest;
      Run1(d, p);
    }
  }

  // ---------------------------------------------------------------------------
  // Modes and charsets
  // ---------------------------------------------------------------------------

  lemma DoPrivate(d: T, n: nat, on: bool)
    ensures Do(d, if on then SetPiece(n) else ResetPiece(n)) == SetPrivateMode(d, n, on)
  {
    hide SetPrivateMode, ScreenFits, Apply;
    var f := if on then 'h' as int else 'l' as int;
    Apply1(d, CsiDispatch('?' as int, 0, [P(n)], f));
    ApplyPrivate(d, n, on);
  }

  lemma ApplyPrivate(d: T, n: nat, on: bool)
    ensures Apply(d, CsiDispatch('?' as int, 0, [P(n)], if on then 'h' as int else 'l' as int)) == SetPrivateMode(d, n, on)
  {
    hide SetPrivateMode, SetPrivateModes, ScreenFits, ApplyPlainCsi, SoftReset, ApplyEsc, ApplyOsc, ApplyExecute, PrintRune;
    PrivateOne(d, n, on);
  }

  lemma PrivateOne(d: T, n: nat, on: bool)
    ensures SetPrivateModes(d, [P(n)], on) == SetPrivateMode(d, n, on)
  {
    hide SetPrivateMode, ScreenFits;
    var ps := [P(n)];
    assert ps[1..] == [];
    assert RawParam(ps, 0, -1) == n;
  }

  lemma AnsiOne(d: T, n: nat)
    ensures SetModes(d, [P(n)], true) == WithModes(d, SetMode(d.modes, n, true))
  {
    hide SetMode, ScreenFits;
    var ps := [P(n)];
    assert ps[1..] == [];
    assert RawParam(ps, 0, -1) == n;
  }

  predicate MouseOk(n: nat) { n == 0 || n == 9 || n == 1000 || n == 1002 || n == 1003 }
  predicate MouseEncOk(n: nat) { n == 0 || n == 1005 || n == 1006 || n == 1015 }

  /** Private modes that touch nothing but the mode record. */
  predicate Simple(n: nat) { n != 6 && n != 47 && n != 1047 && n != 1049 }

  lemma DoSimple(d: T, n: nat, on: bool)
    requires Simple(n)
    ensures Do(d, if on then SetPiece(n) else ResetPiece(n)) == WithModes(d, PrivateFlag(d.modes, n, on))
  {
    hide Do, ScreenFits;
    DoPrivate(d, n, on);
  }

  lemma DoAnsi(d: T, n: nat)
    ensures Do(d, Csi(0, [P(n)], 0, 'h' as int)) == WithModes(d, SetMode(d.modes, n, true))
  {
    hide Apply, ScreenFits, ApplyMotion, ApplyEdit, ClearTabs, SetRegion, SaveCursor, RestoreCursor, Sgr, SetModes, SetMode,
      IsMotion, RawParam;
    Apply1(d, CsiDispatch(0, 0, [P(n)], 'h' as int));
    ApplyPlain(d, [P(n)], 'h' as int);
    NoMotion('h' as int);
    AnsiOne(d, n);
  }

  lemma DoStyle(d: T, n: nat)
    ensures Do(d, Csi(0, [P(n)], ' ' as int, 'q' as int)) == WithModes(d, d.modes.(cursorStyle := n))
  {
    hide ScreenFits, ApplyPlainCsi, SoftReset, ApplyEsc, ApplyOsc, ApplyExecute, PrintRune, SetPrivateModes, ApplyAll;
    Apply1(d, CsiDispatch(0, ' ' as int, [P(n)], 'q' as int));
  }

  /** The modes the snapshot's opening leaves in force. */
  function Opening(origin: bool): Modes { INIT_MODES.(cursorVisible := false, origin := origin) }

  /** After the ANSI modes, cursor keys and autowrap. */
  function Early(m: Modes): Modes {
    Opening(m.origin).(insert := m.insert, lineFeedNewline := m.lineFeedNewline,
                       cursorKeys := m.cursorKeys, autowrap := m.autowrap)
  }

  function MousePieces(m: Modes): seq<Piece> {
    When(m.mouse != 0, SetPiece(m.mouse))
    + (When(m.mouseEnc != 0, SetPiece(m.mouseEnc))
    + When(m.cursorStyle != 0, Csi(0, [P(m.cursorStyle)], ' ' as int, 'q' as int)))
  }

  function LatePieces(m: Modes): seq<Piece> {
    When(m.bracketedPaste, SetPiece(2004)) + (When(m.focusEvents, SetPiece(1004)) + MousePieces(m))
  }

  lemma EarlyRestored(d: T, m: Modes)
    ensures Run(WithModes(d, Opening(m.origin)), ModePieces(m)) == Run(WithModes(d, Early(m)), LatePieces(m))
  {
    hide Run, ScreenFits, WithModes, LatePieces;
    var m0 := Opening(m.origin);
    var m1 := m0.(insert := m.insert);
    var m2 := m1.(lineFeedNewline := m.lineFeedNewline);
    var m3 := m2.(cursorKeys := m.cursorKeys);
    var r3 := When(!m.autowrap, ResetPiece(7)) + LatePieces(m);
    var r2 := When(m.cursorKeys, SetPiece(1)) + r3;
    var r1 := When(m.lineFeedNewline, Csi(0, [P(20)], 0, 'h' as int)) + r2;
    ModeParts(m);
    AnsiStep(d, 4, m0, m1, m.insert, r1);
    AnsiStep(d, 20, m1, m2, m.lineFeedNewline, r2);
    PrivateStep(d, 1, true, m2, m3, m.cursorKeys, r3);
    PrivateStep(d, 7, false, m3, Early(m), !m.autowrap, LatePieces(m));
  }

  lemma ModeParts(m: Modes)
    ensures ModePieces(m) == When(m.insert, Csi(0, [P(4)], 0, 'h' as int))
      + (When(m.lineFeedNewline, Csi(0, [P(20)], 0, 'h' as int))
      + (When(m.cursorKeys, SetPiece(1)) + (When(!m.autowrap, ResetPiece(7)) + LatePieces(m))))
  {
    hide When, MousePieces;
    assert LatePieces(m) == When(m.bracketedPaste, SetPiece(2004)) + (When(m.focusEvents, SetPiece(1004)) + MousePieces(m));
    MouseParts(m);
  }

  lemma MouseParts(m: Modes)
    ensures MousePieces(m) == When(m.mouse != 0, SetPiece(m.mouse))
      + (When(m.mouseEnc != 0, SetPiece(m.mouseEnc))
      + When(m.cursorStyle != 0, Csi(0, [P(m.cursorStyle)], ' ' as int, 'q' as int)))
  {
    hide When;
  }

  lemma LateModes(m4: Modes, m5: Modes, m6: Modes, m7: Modes, mouse: nat, enc: nat)
    requires MouseOk(mouse) && MouseEncOk(enc)
    ensures Simple(2004) && PrivateFlag(m4, 2004, true) == m4.(bracketedPaste := true)
    ensures Simple(1004) && PrivateFlag(m5, 1004, true) == m5.(focusEvents := true)
    ensures mouse != 0 ==> Simple(mouse) && PrivateFlag(m6, mouse, true) == m6.(mouse := mouse)
    ensures enc != 0 ==> Simple(enc) && PrivateFlag(m7, enc, true) == m7.(mouseEnc := enc)
  {
  }

  function Middle(m: Modes): Modes {
    Early(m).(bracketedPaste := m.bracketedPaste, focusEvents := m.focusEvents)
  }

  lemma LateRestored(d: T, m: Modes)
    ensures Run(WithModes(d, Early(m)), LatePieces(m)) == Run(WithModes(d, Middle(m)), MousePieces(m))
  {
    hide Run, ScreenFits, WithModes, PrivateFlag, Simple, MousePieces, When;
    var m5 := Early(m).(bracketedPaste := m.bracketedPaste);
    LateModes(Early(m), m5, m5, m5, 0, 0);
    PrivateStep(d, 2004, true, Early(m), m5, m.bracketedPaste, When(m.focusEvents, SetPiece(1004)) + MousePieces(m));
    PrivateStep(d, 1004, true, m5, Middle(m), m.focusEvents, MousePieces(m));
  }

  lemma MouseStep(d: T, m: Modes, n: nat, rest: seq<Piece>)
    requires MouseOk(n) && m.mouse == 0
    ensures Run(WithModes(d, m), When(n != 0, SetPiece(n)) + rest) == Run(WithModes(d, m.(mouse := n)), rest)
  {
    hide Run, ScreenFits, WithModes, PrivateFlag, Simple, MouseOk, When;
    LateModes(m, m, m, m, n, 0);
    PrivateStep(d, n, true, m, m.(mouse := n), n != 0, rest);
  }

  lemma EncStep(d: T, m: Modes, n: nat, rest: seq<Piece>)
    requires MouseEncOk(n) && m.mouseEnc == 0
    ensures Run(WithModes(d, m), When(n != 0, SetPiece(n)) + rest) == Run(WithModes(d, m.(mouseEnc := n)), rest)
  {
    hide Run, ScreenFits, WithModes, PrivateFlag, Simple, MouseEncOk, When;
    LateModes(m, m, m, m, 0, n);
    PrivateStep(d, n, true, m, m.(mouseEnc := n), n != 0, rest);
  }

  lemma MiddleIs(m: Modes)
    ensures var m6 := Middle(m); m6.mouse == m6.mouseEnc == m6.cursorStyle == 0
    ensures Middle(m).(mouse := m.mouse).(mouseEnc := m.mouseEnc).(cursorStyle := m.cursorStyle) == m.(cursorVisible := false)
  {
  }

  lemma MouseRestored(d: T, m: Modes)
    requires MouseOk(m.mouse) && MouseEncOk(m.mouseEnc)
    ensures Run(WithModes(d, Middle(m)), MousePieces(m)) == WithModes(d, m.(cursorVisible := false))
  {
    hide Run, ScreenFits, Fits, WithModes, MouseOk, MouseEncOk, When, Middle, MousePieces;
    var m6 := Middle(m);
    var m7 := m6.(mouse := m.mouse);
    var m8 := m7.(mouseEnc := m.mouseEnc);
    var r8 := When(m.cursorStyle != 0, Csi(0, [P(m.cursorStyle)], ' ' as int, 'q' as int));
    MiddleIs(m);
    MouseParts(m);
    MouseStep(d, m6, m.mouse, When(m.mouseEnc != 0, SetPiece(m.mouseEnc)) + r8);
    EncStep(d, m7, m.mouseEnc, r8);
    StyleStep(d, m8, m.cursorStyle);
  }

  /** All modes but cursor visibility, which is set last. */
  lemma ModesRestored(d: T, m: Modes)
    requires d.modes == Opening(m.origin) && MouseOk(m.mouse) && MouseEncOk(m.mouseEnc)
    ensures Run(d, ModePieces(m)) == WithModes(d, m.(cursorVisible := false))
  {
    hide Run, ScreenFits, ModePieces;
    ModesSame(d);
    EarlyRestored(d, m);
    LateRestored(d, m);
    MouseRestored(d, m);
  }

  lemma ModesSame(d: T)
    ensures WithModes(d, d.modes) == d
  {
    hide ScreenFits;
  }

  lemma ModesTwice(d: T, m: Modes, m': Modes)
    ensures WithModes(WithModes(d, m), m') == WithModes(d, m') && WithModes(d, m).modes == m
  {
    hide ScreenFits;
  }

  lemma AnsiStep(d: T, n: nat, m: Modes, m': Modes, c: bool, rest: seq<Piece>)
    requires m' == if c then SetMode(m, n, true) else m
    ensures Run(WithModes(d, m), When(c, Csi(0, [P(n)], 0, 'h' as int)) + rest) == Run(WithModes(d, m'), rest)
  {
    hide Run, Do, ScreenFits;
    ModesTwice(d, m, m');
    DoAnsi(WithModes(d, m), n);
    DoWhen(WithModes(d, m), c, Csi(0, [P(n)], 0, 'h' as int), rest, WithModes(d, m'));
  }

  lemma PrivateStep(d: T, n: nat, on: bool, m: Modes, m': Modes, c: bool, rest: seq<Piece>)
    requires c ==> Simple(n)
    requires m' == if c then PrivateFlag(m, n, on) else m
    ensures Run(WithModes(d, m), When(c, if on then SetPiece(n) else ResetPiece(n)) + rest) == Run(WithModes(d, m'), rest)
  {
    hide Run, Do, ScreenFits, Simple, PrivateFlag;
    ModesTwice(d, m, m');
    if c {
      DoSimple(WithModes(d, m), n, on);
    }
    DoWhen(WithModes(d, m), c, if on then SetPiece(n) else ResetPiece(n), rest, WithModes(d, m'));
  }

  lemma StyleStep(d: T, m: Modes, n: nat)
    requires m.cursorStyle == 0
    ensures Run(WithModes(d, m), When(n != 0, Csi(0, [P(n)], ' ' as int, 'q' as int)))
      == WithModes(d, m.(cursorStyle := n))
  {
    hide Run, Do, ScreenFits;
    ModesTwice(d, m, m.(cursorStyle := n));
    DoStyle(WithModes(d, m), n);
    DoWhen(WithModes(d, m), n != 0, Csi(0, [P(n)], ' ' as int, 'q' as int), [], WithModes(d, m.(cursorStyle := n)));
  }
}
