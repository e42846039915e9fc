/** Cells edited in place, within one row's storage. */
module CellArrays {
  import opened Utf8
  import opened Cells
  import opened Terminal

  /** row.clear: cells [from, to) erased with the style's background. */
  method ClearIn(a: array<Cell>, from: int, to: int, st: Style)
    modifies a
    ensures a[..] == ClearCells(old(a[..]), from, to, st)
  {
    var lo := if from < 0 then 0 else from;
    var hi := if to > a.Length then a.Length else to;
    var i := lo;
    while i < hi
      invariant lo <= i && (i <= hi || i == lo)
      invariant forall x :: 0 <= x < a.Length ==> a[x] == if lo <= x < i then Blank(st) else old(a[x])
      modifies a
    {
      a[i] := Blank(st);
      i := i + 1;
    }
  }

  /** The n elements from `from` on copied to `to`, as Go's copy does whatever overlaps. */
  function Moved<T>(s: seq<T>, to: nat, from: nat, n: nat): (r: seq<T>)
    requires from + n <= |s| && to + n <= |s|
    ensures |r| == |s|
  {
    s[..to] + s[from..from + n] + s[to + n..]
  }

  lemma MovedAt<T>(s: seq<T>, to: nat, from: nat, n: nat, x: nat)
    requires from + n <= |s| && to + n <= |s| && x < |s|
    ensures Moved(s, to, from, n)[x] == if to <= x < to + n then s[x - to + from] else s[x]
  {
  }

  /** One more element at the end, or at the front, of what was copied. */
  lemma MovedMore<T>(s: seq<T>, to: nat, from: nat, n: nat)
    requires from + n < |s| && to + n < |s|
    ensures to <= from ==> Moved(s, to, from, n)[from + n] == s[from + n]
    ensures Moved(s, to, from, n + 1) == Moved(s, to, from, n)[to + n := s[from + n]]
    ensures from <= to ==> Moved(s, to + 1, from + 1, n)[from] == s[from]
    ensures Moved(s, to, from, n + 1) == Moved(s, to + 1, from + 1, n)[to := s[from]]
  {
    var a, b, c := Moved(s, to, from, n + 1), Moved(s, to, from, n)[to + n := s[from + n]], Moved(s, to + 1, from + 1, n)[to := s[from]];
    hide Moved;
    forall x | 0 <= x < |s| ensures a[x] == b[x] == c[x] {
      MovedAt(s, to, from, n + 1, x);
      MovedAt(s, to, from, n, x);
      MovedAt(s, to + 1, from + 1, n, x);
    }
    MovedAt(s, to, from, n, from + n);
    MovedAt(s, to + 1, from + 1, n, from);
  }

  lemma MovedNothing<T>(s: seq<T>, to: nat, from: nat)
    requires from <= |s| && to <= |s|
    ensures Moved(s, to, from, 0) == s
  {
  }

  /** Towards the front, from the first element on. */
  method CopyDown<T>(a: array<T>, to: nat, from: nat, n: nat)
    requires to <= from && from + n <= a.Length
    modifies a
    ensures a[..] == Moved(old(a[..]), to, from, n)
  {
    hide Moved;
    ghost var was := a[..];
    MovedNothing(was, to, from);
    for i := 0 to n
      invariant a[..] == Moved(was, to, from, i)
    {
      MovedMore(was, to, from, i);
      assert a[from + i] == a[..][from + i];
      a[to + i] := a[from + i];
    }
  }

  /** Towards the back, from the last element on. */
  method CopyUp<T>(a: array<T>, to: nat, from: nat, n: nat)
    requires from <= to && to + n <= a.Length
    modifies a
    ensures a[..] == Moved(old(a[..]), to, from, n)
  {
    hide Moved;
    ghost var was := a[..];
    MovedNothing(was, to + n, from + n);
    var i := n;
    while i > 0
      invariant 0 <= i <= n && a[..] == Moved(was, to + i, from + i, n - i)
      modifies a
    {
      i := i - 1;
      MovedMore(was, to + i, from + i, n - i - 1);
      assert a[from + i] == a[..][from + i];
      a[to + i] := a[from + i];
    }
  }

  lemma InsertMoved(s: seq<Cell>, x: nat, k: nat, pen: Style)
    requires x + k <= |s|
    ensures ClearCells(Moved(s, x + k, x, |s| - x - k), x, x + k, pen) == s[..x] + Blanks(k, pen) + s[x..|s| - k]
  {
    hide Moved;
    var m, b, c := Moved(s, x + k, x, |s| - x - k), Blanks(k, pen), s[x..|s| - k];
    var l, r := ClearCells(m, x, x + k, pen), s[..x] + b + c;
    assert |b| == k && |l| == |r|;
    forall i | 0 <= i < |s| ensures l[i] == r[i] {
      MovedAt(s, x + k, x, |s| - x - k, i);
      if i < x {
        assert r[i] == s[i] && m[i] == s[i];
      } else if i < x + k {
        assert r[i] == b[i - x];
      } else {
        assert r[i] == c[i - x - k] && m[i] == s[i - k];
      }
    }
  }

  lemma DeleteMoved(s: seq<Cell>, x: nat, k: nat, pen: Style)
    requires x + k <= |s|
    ensures ClearCells(Moved(s, x, x + k, |s| - x - k), |s| - k, |s|, pen) == s[..x] + s[x + k..] + Blanks(k, pen)
  {
    hide Moved;
    var m, b, c := Moved(s, x, x + k, |s| - x - k), Blanks(k, pen), s[x + k..];
    var l, r := ClearCells(m, |s| - k, |s|, pen), s[..x] + c + b;
    assert |b| == k && |l| == |r|;
    forall i | 0 <= i < |s| ensures l[i] == r[i] {
      MovedAt(s, x, x + k, |s| - x - k, i);
      if i < x {
        assert r[i] == s[i] && m[i] == s[i];
      } else if i < |s| - k {
        assert r[i] == c[i - x] && m[i] == s[i + k];
      } else {
        assert r[i] == b[i - (|s| - k)];
      }
    }
  }

  /** insertCells. */
  method InsertIn(a: array<Cell>, x: int, n: int, pen: Style)
    requires 0 <= x < a.Length && n >= 0
    modifies a
    ensures a[..] == InsertInLine(old(a[..]), x, n, pen)
  {
    hide Moved, ClearCells, Blanks;
    var w := a.Length;
    var k := if n > w - x then w - x else n;
    InsertMoved(a[..], x, k, pen);
    CopyUp(a, x + k, x, w - x - k);
    ClearIn(a, x, x + k, pen);
    if a[w - 1].width == 2 {
      a[w - 1] := Blank(a[w - 1].style);
    }
  }

  /** deleteChars. */
  method DeleteIn(a: array<Cell>, x: int, n: nat, pen: Style)
    requires 0 <= x < a.Length
    modifies a
    ensures a[..] == DeleteInLine(old(a[..]), x, n, pen)
  {
    hide Moved, ClearCells, Blanks;
    var w := a.Length;
    var k := if n > w - x then w - x else n;
    DeleteMoved(a[..], x, k, pen);
    CopyDown(a, x, x + k, w - x - k);
    ClearIn(a, w - k, w, pen);
  }

  /** The store of print: a character at column x, overwritten halves blanked. */
  method PlaceIn(a: array<Cell>, x: int, ch: seq<Rune>, width: int, pen: Style, link: seq<byte>)
    requires 0 <= x < a.Length && 1 <= width <= 2 && x + width <= a.Length
    modifies a
    ensures a[..] == PlaceInLine(old(a[..]), x, ch, width, pen, link)
  {
    var w := a.Length;
    if a[x].width == 0 && x > 0 {
      a[x - 1] := Blank(a[x - 1].style);
    }
    if width == 1 && x + 1 < w && a[x].width == 2 {
      a[x + 1] := Blank(a[x + 1].style);
    }
    a[x] := Cell(ch, width, pen, link);
    if width == 2 {
      if x + 2 < w && a[x + 1].width == 2 {
        a[x + 2] := Blank(a[x + 2].style);
      }
      a[x + 1] := Cell([], 0, pen, link);
    }
  }
}
