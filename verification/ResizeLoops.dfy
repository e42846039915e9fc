/** Resizing one screen step by step, as the emulator does it. */
module ResizeLoops {
  import opened Cells
  import opened Terminal
  import opened Resizing

  method FitAll(rows: seq<Row>, w: nat) returns (r: seq<Row>)
    ensures r == FitRows(rows, w)
  {
    hide Fitted;
    r := rows;
    for i := 0 to |rows|
      invariant |r| == |rows|
      invariant forall y :: 0 <= y < |r| ==> r[y] == if y < i then Fitted(rows[y], w) else rows[y]
    {
      r := r[i := Fitted(r[i], w)];
    }
  }

  /** Blank rows below row y disappear, at most n of them. */
  method DropBlank(rows: seq<Row>, y: int, n: nat) returns (left: seq<Row>, remove: nat)
    requires n <= |rows| && y >= 0
    ensures var k := BlankTail(rows, y, n); left == rows[..|rows| - k] && remove == n - k
  {
    hide LastVisible;
    left, remove := rows, n;
    while remove > 0 && |left| - 1 > y && LastVisible(left[|left| - 1].cells) == 0
      invariant remove <= n && remove <= |left| <= |rows| && n - remove == |rows| - |left| && left == rows[..|left|]
      invariant BlankTail(rows, y, n) == |rows| - |left| + BlankTail(left, y, remove)
    {
      assert left[..|left| - 1] == rows[..|left| - 1];
      left, remove := left[..|left| - 1], remove - 1;
    }
  }

  method StoreAll(sb0: seq<Row>, rows: seq<Row>, max: nat) returns (sb: seq<Row>)
    ensures sb == PushAll(sb0, rows, max)
  {
    hide Push;
    sb := sb0;
    assert rows[0..] == rows;
    for i := 0 to |rows|
      invariant PushAll(sb0, rows, max) == PushAll(sb, rows[i..], max)
    {
      assert rows[i..][0] == rows[i] && rows[i..][1..] == rows[i + 1..];
      sb := Push(sb, rows[i], max);
    }
  }

  /** Blank rows below the cursor disappear first, then rows scroll off the top. */
  method Shrink(s: Screen, h: nat, useScrollback: bool, max: nat) returns (r: Screen)
    requires h <= |s.rows| && s.cur.y >= 0 && s.saved.y >= 0
    ensures r == Shorter(s, h, useScrollback, max)
  {
    hide BlankTail, PushAll;
    var rows, remove := DropBlank(s.rows, s.cur.y, |s.rows| - h);
    r := s.(rows := rows);
    if remove > 0 {
      if useScrollback {
        var sb := StoreAll(r.scrollback, rows[..remove], max);
        r := r.(scrollback := sb);
      }
      var y, sy := r.cur.y - remove, r.saved.y - remove;
      if y < 0 {
        y := 0;
      }
      if sy < 0 {
        sy := 0;
      }
      r := r.(rows := rows[remove..], cur := r.cur.(y := y), saved := r.saved.(y := sy));
    } else {
      StoreNothing(s.scrollback, rows, max);
    }
  }

  lemma StoreNothing(sb: seq<Row>, rows: seq<Row>, max: nat)
    ensures PushAll(sb, rows[..0], max) == sb && rows[0..] == rows
  {
  }

  /** The screen with k lines taken back. */
  function Taken(s: Screen, w: nat, k: nat): Screen
    requires k <= |s.scrollback|
  {
    var n := |s.scrollback| - k;
    s.(rows := FitRows(s.scrollback[n..], w) + s.rows, scrollback := s.scrollback[..n],
       cur := s.cur.(y := s.cur.y + k), saved := s.saved.(y := s.saved.y + k))
  }

  lemma TakenNone(s: Screen, w: nat)
    ensures Taken(s, w, 0) == s
  {
    FitNothing(w);
    assert s.scrollback[..|s.scrollback|] == s.scrollback && s.scrollback[|s.scrollback|..] == [];
  }

  lemma TakenMore(s: Screen, w: nat, k: nat)
    requires k < |s.scrollback|
    ensures var r := Taken(s, w, k); var n := |r.scrollback|;
      && n == |s.scrollback| - k && |r.rows| == |s.rows| + k && r.cur.y == s.cur.y + k
      && Taken(s, w, k + 1) == r.(scrollback := r.scrollback[..n - 1], rows := [Fitted(r.scrollback[n - 1], w)] + r.rows,
                                  cur := r.cur.(y := r.cur.y + 1), saved := r.saved.(y := r.saved.y + 1))
  {
    hide Fitted, FitRows;
    var sb := s.scrollback;
    var i := |sb| - k - 1;
    FitMore(sb, i, w);
    Front([Fitted(sb[i], w)], FitRows(sb[i + 1..], w), s.rows);
    assert sb[..i + 1][..i] == sb[..i] && sb[..i + 1][i] == sb[i];
  }

  /** Lines that scrolled off come back while the cursor sits on the last row. */
  method TakeBack(s: Screen, w: nat, n: nat) returns (r: Screen, add: nat)
    ensures var k := Returning(|s.scrollback|, |s.rows|, s.cur.y, n); k <= |s.scrollback| && add == n - k && r == Taken(s, w, k)
  {
    hide Fitted, Taken;
    r, add := s, n;
    TakenNone(s, w);
    ghost var k := 0;
    while add > 0 && |r.scrollback| > 0 && r.cur.y == |r.rows| - 1
      invariant add == n - k && 0 <= k <= |s.scrollback| && (k > 0 ==> s.cur.y == |s.rows| - 1)
      invariant r == Taken(s, w, k) && |r.rows| == |s.rows| + k && |r.scrollback| == |s.scrollback| - k && r.cur.y == s.cur.y + k
    {
      var last := r.scrollback[|r.scrollback| - 1];
      TakenMore(s, w, k);
      r := r.(scrollback := r.scrollback[..|r.scrollback| - 1], rows := [Fitted(last, w)] + r.rows,
              cur := r.cur.(y := r.cur.y + 1), saved := r.saved.(y := r.saved.y + 1));
      add, k := add - 1, k + 1;
    }
  }

  lemma FitNothing(w: nat)
    ensures FitRows([], w) == []
  {
  }

  lemma FitMore(sb: seq<Row>, i: nat, w: nat)
    requires i < |sb|
    ensures FitRows(sb[i..], w) == [Fitted(sb[i], w)] + FitRows(sb[i + 1..], w) && |FitRows(sb[i + 1..], w)| == |sb| - i - 1
  {
  }

  lemma Front<A>(a: seq<A>, b: seq<A>, c: seq<A>)
    ensures a + (b + c) == (a + b) + c
  {
  }

  lemma ReturningBound(sb: nat, rows: nat, y: int, n: nat)
    ensures Returning(sb, rows, y, n) <= sb && Returning(sb, rows, y, n) <= n
  {
  }

  function Back(s: Screen, useScrollback: bool, add: nat): (k: nat)
    ensures k <= |s.scrollback| && k <= add
  {
    ReturningBound(|s.scrollback|, |s.rows|, s.cur.y, add);
    if useScrollback then Returning(|s.scrollback|, |s.rows|, s.cur.y, add) else 0
  }

  /** The taller screen: lines taken back, then blank rows. */
  lemma TallerIs(s: Screen, w: nat, h: nat, useScrollback: bool)
    requires |s.rows| <= h
    ensures var add := h - |s.rows|; var k := Back(s, useScrollback, add);
      Taller(s, w, h, useScrollback) == Taken(s, w, k).(rows := Taken(s, w, k).rows + BlankRows(add - k, w, PLAIN))
  {
    hide FitRows, BlankRows, Returning;
    var add := h - |s.rows|;
    var k := Back(s, useScrollback, add);
    var t, u := Taken(s, w, k), Taller(s, w, h, useScrollback);
    assert u.rows == t.rows + BlankRows(add - k, w, PLAIN);
    assert u.scrollback == t.scrollback && u.cur == t.cur && u.saved == t.saved;
  }

  /** Lines come back from the scrollback, then blank rows fill up. */
  method Grow(s: Screen, w: nat, h: nat, useScrollback: bool) returns (r: Screen)
    requires |s.rows| <= h
    ensures r == Taller(s, w, h, useScrollback)
  {
    hide Taken, Taller, BlankRows, BlankRow;
    r := s;
    var add := h - |s.rows|;
    TakenNone(s, w);
    TallerIs(s, w, h, useScrollback);
    if useScrollback {
      r, add := TakeBack(s, w, add);
    }
    var rows := r.rows;
    NoBlanks(r.rows, w);
    for i := 0 to add
      invariant rows == r.rows + BlankRows(i, w, PLAIN)
    {
      OneMoreBlank(i, w);
      Front(r.rows, BlankRows(i, w, PLAIN), [BlankRow(w, PLAIN)]);
      rows := rows + [BlankRow(w, PLAIN)];
    }
    r := r.(rows := rows);
  }

  lemma NoBlanks(rows: seq<Row>, w: nat)
    ensures rows + BlankRows(0, w, PLAIN) == rows
  {
  }

  lemma OneMoreBlank(n: nat, w: nat)
    ensures BlankRows(n + 1, w, PLAIN) == BlankRows(n, w, PLAIN) + [BlankRow(w, PLAIN)]
  {
  }

  /** Columns cut or padded, the cursors with them. */
  method FitScreen(s: Screen, w0: nat, w: nat) returns (r: Screen)
    requires w >= 1
    ensures r == if w == w0 then s
      else s.(rows := FitRows(s.rows, w), cur := s.cur.(x := Min(s.cur.x, w - 1)), saved := s.saved.(x := Min(s.saved.x, w - 1)))
    ensures |r.rows| == |s.rows|
  {
    r := s;
    if w != w0 {
      var rows := FitAll(s.rows, w);
      FitLength(s.rows, w);
      var x, sx := if s.cur.x >= w then w - 1 else s.cur.x, if s.saved.x >= w then w - 1 else s.saved.x;
      r := s.(rows := rows, cur := s.cur.(x := x), saved := s.saved.(x := sx));
    }
  }

  /** resizeScreen, as a whole. */
  method ResizeOne(s: Screen, w0: nat, w: nat, h: nat, useScrollback: bool, max: nat) returns (r: Screen)
    requires w >= 1 && h >= 1 && s.cur.y >= 0 && s.saved.y >= 0
    ensures r == ResizeScreen(s, w0, w, h, useScrollback, max)
  {
    hide FitRows, Shorter, Taller;
    r := FitScreen(s, w0, w);
    if h < |r.rows| {
      r := Shrink(r, h, useScrollback, max);
    } else {
      r := Grow(r, w, h, useScrollback);
    }
    var y, sy := r.cur.y, r.saved.y;
    if y >= h {
      y := h - 1;
    }
    if sy >= h {
      sy := h - 1;
    }
    r := r.(cur := r.cur.(y := y, pendingWrap := false), saved := r.saved.(y := sy), top := 0, bot := h - 1);
  }

  lemma FitLength(rows: seq<Row>, w: nat)
    ensures |FitRows(rows, w)| == |rows|
  {
  }
}
