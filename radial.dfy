/** The index pattern of the radial chord art: each of the 120 points on the
    circle is joined to the points 30, 40 and 50 places further on. The
    geometry (sines, cosines, breathing radius) is not modelled. */
module Radial {

  const NumPoints: nat := 120
  const Offsets: seq<nat> := [30, 40, 50]

  /** The chords of one stroke: `(i, (i + offset) % 120)` for `i < 120`. */
  function ChordsFor(offset: nat): seq<(nat, nat)>
  {
    seq(NumPoints, i requires 0 <= i => (i, (i + offset) % NumPoints))
  }

  /** All chords, stroke by stroke in the order of `Offsets`. */
  function Chords(): seq<(nat, nat)>
  {
    ChordsFor(Offsets[0]) + ChordsFor(Offsets[1]) + ChordsFor(Offsets[2])
  }

  /** 360 chords; each joins two distinct points of the circle, and chord
      `n` belongs to stroke `n / 120`, starts at point `n % 120` and skips
      that stroke's offset. */
  lemma ChordsShape()
    ensures |Chords()| == 3 * NumPoints
    ensures forall n :: 0 <= n < |Chords()| ==>
              Chords()[n] == (n % NumPoints, (n % NumPoints + Offsets[n / NumPoints]) % NumPoints)
    ensures forall n :: 0 <= n < |Chords()| ==>
              Chords()[n].0 < NumPoints && Chords()[n].1 < NumPoints && Chords()[n].0 != Chords()[n].1
  {
    var a, b, c := ChordsFor(30), ChordsFor(40), ChordsFor(50);
    var cs := Chords();
    assert cs == a + b + c;
    forall n | 0 <= n < |cs|
      ensures cs[n] == (n % NumPoints, (n % NumPoints + Offsets[n / NumPoints]) % NumPoints)
    {
      if n < 120 { assert cs[n] == a[n]; }
      else if n < 240 { assert cs[n] == b[n - 120]; }
      else { assert cs[n] == c[n - 240]; }
    }
  }

  /** Following a stroke `n` times from point `i`. */
  function Hop(i: nat, offset: nat, n: nat): nat
  {
    (i + n * offset) % NumPoints
  }

  /** The number of hops after which a stroke returns to its point. */
  function Period(offset: nat): nat
  {
    if offset == 30 then 4 else if offset == 40 then 3 else 12
  }

  /** Each stroke closes up into polygons: 30 squares for offset 30, 40
      triangles for offset 40, and 10 twelve-pointed stars for offset 50.
      Every point returns to itself after exactly `Period(offset)` hops. */
  lemma {:induction false} StrokesClose(i: nat, offset: nat, n: nat)
    requires i < NumPoints && offset in Offsets
    ensures Hop(i, offset, Period(offset)) == i
    ensures 0 < n < Period(offset) ==> Hop(i, offset, n) != i
  {
    var p := Period(offset);
    assert p * offset == 120 || p * offset == 600;
    assert (i + 120) % 120 == i && (i + 600) % 120 == i;
    if 0 < n < p {
      var m := n * offset;
      assert 0 < m % NumPoints by {
        if offset == 30 { assert m == 30 || m == 60 || m == 90; }
        else if offset == 40 { assert m == 40 || m == 80; }
        else { assert m % 10 == 0 && m < 600 && m != 120 && m != 240 && m != 360 && m != 480; }
      }
      assert (i + m) % NumPoints != i;
    }
  }
}
