/** Renditions survive being written as SGR parameters and read back. */
module Renditions {
  import opened Cells
  import opened Parser
  import opened Sequences
  import opened Dispatch
  import opened Snapshots

  /** No parameter of the list belongs to what was written before it. */
  predicate Starts(ps: seq<Param>) { ps == [] || !ps[0].sub }

  /** The attribute that SGR n switches on. */
  function Flag(st: Style, n: nat): Style {
    var a := st.attrs;
    st.(attrs :=
      match n
      case 1 => a.(bold := true)
      case 2 => a.(dim := true)
      case 3 => a.(italic := true)
      case 5 => a.(blink := true)
      case 7 => a.(inverse := true)
      case 8 => a.(hidden := true)
      case _ => a.(strike := true))
  }

  lemma RunStep(ps: seq<Param>, pen: Style)
    requires ps != []
    ensures SgrRun(ps, pen) == SgrRun(ps[SgrStep(ps, pen).1..], SgrStep(ps, pen).0)
  {
  }

  lemma FlagRead(b: bool, n: nat, rest: seq<Param>, pen: Style)
    requires n in {1, 2, 3, 5, 7, 8, 9}
    ensures SgrRun(If(b, P(n)) + rest, pen) == SgrRun(rest, if b then Flag(pen, n) else pen)
    ensures Starts(rest) ==> Starts(If(b, P(n)) + rest)
  {
    hide SgrRun;
    var ps := If(b, P(n)) + rest;
    if b {
      RunStep(ps, pen);
      assert ps[1..] == rest;
    } else {
      assert ps == rest;
    }
  }

  lemma UnderlineRead(u: Underline, rest: seq<Param>, pen: Style)
    requires Starts(rest) && pen.underline == NoLine
    ensures SgrRun(UnderlineParams(u) + rest, pen) == SgrRun(rest, pen.(underline := u))
    ensures Starts(UnderlineParams(u) + rest)
  {
    hide SgrRun;
    var ps := UnderlineParams(u) + rest;
    if u == NoLine {
      assert ps == rest;
    } else {
      RunStep(ps, pen);
      if u == Single || u == Double {
        assert ps[1..] == rest;
      } else {
        RunStep(ps[1..], pen.(underline := u));
        assert ps[1..][1..] == rest;
      }
    }
  }

  function Painted(st: Style, ext: nat, c: Color): Style {
    if ext == 38 then st.(fg := c) else if ext == 48 then st.(bg := c) else st.(ul := c)
  }

  function Unpainted(st: Style, ext: nat): Color {
    if ext == 38 then st.fg else if ext == 48 then st.bg else st.ul
  }

  lemma ColorRead(c: Color, ext: nat, base: nat, bright: nat, rest: seq<Param>, pen: Style)
    requires (ext, base, bright) in {(38, 30, 90), (48, 40, 100), (58, 0, 0)}
    requires Starts(rest) && Unpainted(pen, ext) == Default
    ensures SgrRun(ColorParams(c, ext, base, bright) + rest, pen) == SgrRun(rest, Painted(pen, ext, c))
    ensures Starts(ColorParams(c, ext, base, bright) + rest)
  {
    hide SgrRun;
    var own := ColorParams(c, ext, base, bright);
    var ps := own + rest;
    if c == Default {
      assert ps == rest;
    } else {
      assert forall i :: 0 <= i < |own| ==> ps[i] == own[i];
      RunStep(ps, pen);
      assert ps[|own|..] == rest;
      if |own| == 1 {
        assert SgrStep(ps, pen) == (Painted(pen, ext, c), 1);
      } else {
        assert ExtendedColor(ps) == (c, |own| - 1);
        assert SgrStep(ps, pen) == (Painted(pen, ext, c), |own|);
      }
    }
  }

  lemma RunNothing(st: Style)
    ensures SgrRun([], st) == st
  {
  }

  lemma ColorsRead(st: Style, pen: Style)
    requires pen.fg == pen.bg == pen.ul == Default && pen.attrs == st.attrs && pen.underline == st.underline
    ensures SgrRun(ColorsParams(st), pen) == st && Starts(ColorsParams(st))
  {
    hide SgrRun, ColorParams;
    var u := ColorParams(st.ul, 58, 0, 0);
    assert u + [] == u;
    RunNothing(st);
    ColorRead(st.ul, 58, 0, 0, [], pen.(fg := st.fg, bg := st.bg));
    ColorRead(st.bg, 48, 40, 100, u, pen.(fg := st.fg));
    ColorRead(st.fg, 38, 30, 90, ColorParams(st.bg, 48, 40, 100) + u, pen);
  }

  /** From the underline on: the pen has the first three attributes. */
  lemma LateRead(st: Style, pen: Style)
    requires pen == PLAIN.(attrs := NO_ATTRS.(bold := st.attrs.bold, dim := st.attrs.dim, italic := st.attrs.italic))
    ensures SgrRun(LateParams(st), pen) == st
  {
    hide SgrRun, ColorsParams;
    var a := st.attrs;
    var s9 := If(a.strike, P(9)) + ColorsParams(st);
    var s8 := If(a.hidden, P(8)) + s9;
    var s7 := If(a.inverse, P(7)) + s8;
    var s5 := If(a.blink, P(5)) + s7;
    var p4 := pen.(underline := st.underline);
    var p5 := if a.blink then Flag(p4, 5) else p4;
    var p7 := if a.inverse then Flag(p5, 7) else p5;
    var p8 := if a.hidden then Flag(p7, 8) else p7;
    var p9 := if a.strike then Flag(p8, 9) else p8;
    ColorsRead(st, p9);
    FlagRead(a.strike, 9, ColorsParams(st), p8);
    FlagRead(a.hidden, 8, s9, p7);
    FlagRead(a.inverse, 7, s8, p5);
    FlagRead(a.blink, 5, s7, p4);
    UnderlineRead(st.underline, s5, pen);
  }

  /** SGR round trip: the written parameters set the pen to exactly `st`,
      whatever it was before. */
  lemma SgrRoundTrip(st: Style, pen: Style)
    ensures Sgr(SgrParams(st), pen) == st
  {
    hide SgrRun, LateParams;
    var a := st.attrs;
    var s3 := If(a.italic, P(3)) + LateParams(st);
    var s2 := If(a.dim, P(2)) + s3;
    var s1 := If(a.bold, P(1)) + s2;
    var ps := SgrParams(st);
    assert ps == [P(0)] + s1;
    RunStep(ps, pen);
    assert ps[1..] == s1;
    var p1 := if a.bold then Flag(PLAIN, 1) else PLAIN;
    var p2 := if a.dim then Flag(p1, 2) else p1;
    var p3 := if a.italic then Flag(p2, 3) else p2;
    FlagRead(a.bold, 1, s2, PLAIN);
    FlagRead(a.dim, 2, s3, p1);
    FlagRead(a.italic, 3, LateParams(st), p2);
    LateRead(st, p3);
  }

  /** At most n parameters, each given and small enough for the parser. */
  predicate Given(ps: seq<Param>, n: nat) {
    |ps| <= n && forall i :: 0 <= i < |ps| ==> ps[i].has && ps[i].value <= MAX_VALUE
  }

  lemma GivenConcat(a: seq<Param>, n: nat, b: seq<Param>, m: nat)
    requires Given(a, n) && Given(b, m)
    ensures Given(a + b, n + m)
  {
  }

  lemma PartsGiven(st: Style)
    ensures Given(UnderlineParams(st.underline), 2)
    ensures Given(ColorParams(st.fg, 38, 30, 90), 5)
    ensures Given(ColorParams(st.bg, 48, 40, 100), 5)
    ensures Given(ColorParams(st.ul, 58, 0, 0), 5)
  {
  }

  lemma LateGiven(st: Style)
    ensures Given(LateParams(st), 21)
  {
    hide Given, UnderlineParams, ColorParams;
    PartsGiven(st);
    var a := st.attrs;
    var u := ColorParams(st.ul, 58, 0, 0);
    var b := ColorParams(st.bg, 48, 40, 100);
    GivenConcat(b, 5, u, 5);
    GivenConcat(ColorParams(st.fg, 38, 30, 90), 5, b + u, 10);
    var s9 := IfGiven(a.strike, 9, ColorsParams(st), 15);
    var s8 := IfGiven(a.hidden, 8, s9, 16);
    var s7 := IfGiven(a.inverse, 7, s8, 17);
    var s5 := IfGiven(a.blink, 5, s7, 18);
    GivenConcat(UnderlineParams(st.underline), 2, s5, 19);
  }

  lemma IfGiven(b: bool, n: nat, rest: seq<Param>, m: nat) returns (ps: seq<Param>)
    requires n <= 9 && Given(rest, m)
    ensures ps == If(b, P(n)) + rest && Given(ps, m + 1)
  {
    ps := If(b, P(n)) + rest;
  }

  /** The written parameters fit the parser: at most 25 of the 32 slots. */
  lemma SgrWritable(st: Style)
    ensures 1 <= |SgrParams(st)| <= 25 && Writable(SgrParams(st))
  {
    hide LateParams;
    LateGiven(st);
    var a := st.attrs;
    var s3 := IfGiven(a.italic, 3, LateParams(st), 21);
    var s2 := IfGiven(a.dim, 2, s3, 22);
    var s1 := IfGiven(a.bold, 1, s2, 23);
    GivenConcat([P(0)], 1, s1, 24);
  }
}
