/** The circle method on seat numbers: who sits where after `r` rotations, and who meets whom when. */
module CircleMethod {

  /** A roster of even size with one fixed seat and an odd number of moving seats. */
  predicate Even(m: nat) {
    m >= 2 && m % 2 == 0
  }

  /** The participant at position `p` after `r` rotations, in closed form. */
  function Seat(m: nat, r: nat, p: nat): (x: nat)
    requires Even(m) && r < m && p < m
    ensures x < m
  {
    if p == 0 then 0 else if p > r then p - r else p - r + (m - 1)
  }

  /** The position of participant `x` after `r` rotations. */
  function Position(m: nat, r: nat, x: nat): (p: nat)
    requires Even(m) && r < m && x < m
    ensures p < m
  {
    if x == 0 then 0 else if x + r < m then x + r else x + r - (m - 1)
  }

  /** Seating is a bijection in every round. */
  lemma SeatPosition(m: nat, r: nat, x: nat)
    requires Even(m) && r < m && x < m
    ensures Seat(m, r, Position(m, r, x)) == x
    ensures Position(m, r, Seat(m, r, x)) == x
  {}

  /** Participants `x` and `y` sit opposite each other in round `r`. */
  predicate Opposite(m: nat, r: nat, x: nat, y: nat)
    requires Even(m) && r < m && x < m && y < m
  {
    Position(m, r, x) + Position(m, r, y) == m - 1
  }

  /** The round in which `x` and `y` meet: twice the round is fixed modulo the odd number `m - 1`. */
  function MeetingRound(m: nat, x: nat, y: nat): (r: nat)
    requires Even(m) && x < y < m
    ensures r < m - 1
  {
    var s := x + y;
    if x == 0 then m - 1 - y
    else if s % 2 == 0 then (2 * (m - 1) - s) / 2
    else if s <= m - 1 then (m - 1 - s) / 2
    else (3 * (m - 1) - s) / 2
  }

  /** Any two participants are opposite in exactly one of the `m - 1` rounds. */
  lemma MeetExactlyOnce(m: nat, x: nat, y: nat, r: nat)
    requires Even(m) && x < y < m && r < m - 1
    ensures Opposite(m, r, x, y) <==> r == MeetingRound(m, x, y)
  {}

  /** The roster after one in-place rotation: the first entry stays, the last moves to second place. */
  function Rotate<T>(s: seq<T>): (t: seq<T>)
    requires |s| >= 2
    ensures |t| == |s|
  {
    [s[0], s[|s| - 1]] + s[1..|s| - 1]
  }

  /** The roster after `r` rotations, seat by seat. */
  function Rotation<T>(roster: seq<T>, r: nat): (t: seq<T>)
    requires Even(|roster|) && r < |roster|
    ensures |t| == |roster|
  {
    seq(|roster|, p requires 0 <= p < |roster| => roster[Seat(|roster|, r, p)])
  }

  function RotateTimes<T>(s: seq<T>, r: nat): (t: seq<T>)
    requires |s| >= 2
    ensures |t| == |s|
  {
    if r == 0 then s else Rotate(RotateTimes(s, r - 1))
  }

  lemma RotationStart<T>(roster: seq<T>)
    requires Even(|roster|)
    ensures Rotation(roster, 0) == roster
  {
    assert forall p :: 0 <= p < |roster| ==> Rotation(roster, 0)[p] == roster[p];
  }

  lemma RotateStep<T>(roster: seq<T>, r: nat)
    requires Even(|roster|) && 0 < r < |roster|
    ensures Rotate(Rotation(roster, r - 1)) == Rotation(roster, r)
  {
    var m := |roster|;
    var before, after := Rotation(roster, r - 1), Rotation(roster, r);
    forall p | 0 <= p < m
      ensures Rotate(before)[p] == after[p]
    {
      var q := if p == 0 then 0 else if p == 1 then m - 1 else p - 1;
      assert Rotate(before)[p] == before[q];
      assert Seat(m, r - 1, q) == Seat(m, r, p);
    }
  }

  /** The closed form is what repeated rotation reaches. */
  lemma {:induction false} RotationClosedForm<T>(roster: seq<T>, r: nat)
    requires Even(|roster|) && r < |roster|
    ensures RotateTimes(roster, r) == Rotation(roster, r)
  {
    if r == 0 {
      RotationStart(roster);
    } else {
      RotationClosedForm(roster, r - 1);
      RotateStep(roster, r);
    }
  }
}
