/** How an enemy tank picks a new heading after bumping into something
    (`get_blocked_direction` and `choose_available_direction` in src/main.rs).
    The collision normal is an input; the random pick among the free
    directions is an index parameter. */
module Steering {

  import opened Constants

  function Abs(r: real): real
  {
    if r < 0.0 then -r else r
  }

  function Dot(a: Vec2, b: Vec2): real
  {
    a.x * b.x + a.y * b.y
  }

  /** The axis direction the normal points along: the dominant component
      decides the axis (ties go to the vertical one), its sign the way. */
  function BlockedDirection(n: Vec2): (d: Vec2)
    ensures d in DIRECTIONS
    ensures Abs(n.x) > Abs(n.y) ==> d.y == 0.0 && (d.x == 1.0 <==> n.x > 0.0)
    ensures Abs(n.x) <= Abs(n.y) ==> d.x == 0.0 && (d.y == 1.0 <==> n.y > 0.0)
  {
    if Abs(n.x) > Abs(n.y) then
      if n.x > 0.0 then Vec2(1.0, 0.0) else Vec2(-1.0, 0.0)
    else
      if n.y > 0.0 then Vec2(0.0, 1.0) else Vec2(0.0, -1.0)
  }

  /** The blocked direction is the one of the four most aligned with the
      normal: no other direction has a larger dot product with it. */
  lemma BlockedDirectionFacesNormal(n: Vec2, e: Vec2)
    requires e in DIRECTIONS
    ensures Dot(e, n) <= Dot(BlockedDirection(n), n)
  {
    var d := BlockedDirection(n);
    assert Dot(d, n) == if Abs(n.x) > Abs(n.y) then Abs(n.x) else Abs(n.y);
    assert Dot(e, n) == e.x * n.x + e.y * n.y;
  }

  /** `DIRECTIONS` without the blocked one, in table order. */
  function Without(ds: seq<Vec2>, blocked: Vec2): (r: seq<Vec2>)
    ensures forall d :: d in r <==> d in ds && d != blocked
    ensures |r| <= |ds|
  {
    if ds == [] then []
    else if ds[0] == blocked then Without(ds[1..], blocked)
    else [ds[0]] + Without(ds[1..], blocked)
  }

  function Available(blocked: Vec2): (ds: seq<Vec2>)
    ensures forall d :: d in ds <==> d in DIRECTIONS && d != blocked
  {
    Without(DIRECTIONS, blocked)
  }

  /** Three directions stay free when the blocked one is in the table, all
      four otherwise, so the fallback to the blocked direction never runs. */
  lemma {:induction false} AvailableSize(blocked: Vec2)
    ensures |Available(blocked)| == if blocked in DIRECTIONS then 3 else 4
  {
    var ds := DIRECTIONS;
    assert ds[4..] == [];
    assert |Without(ds[3..], blocked)| == if ds[3] == blocked then 0 else 1 by {
      assert ds[3..][1..] == ds[4..];
    }
    assert |Without(ds[2..], blocked)| == |Without(ds[3..], blocked)| + if ds[2] == blocked then 0 else 1 by {
      assert ds[2..][1..] == ds[3..];
    }
    assert |Without(ds[1..], blocked)| == |Without(ds[2..], blocked)| + if ds[1] == blocked then 0 else 1 by {
      assert ds[1..][1..] == ds[2..];
    }
    assert blocked in DIRECTIONS <==> blocked == ds[0] || blocked == ds[1] || blocked == ds[2] || blocked == ds[3];
  }

  /** The new heading: the `pick`-th free direction, or the blocked one when
      none is free. */
  function ChooseAvailable(blocked: Vec2, pick: nat): (d: Vec2)
    requires |Available(blocked)| > 0 ==> pick < |Available(blocked)|
    ensures |Available(blocked)| > 0 ==> d in DIRECTIONS && d != blocked
    ensures |Available(blocked)| == 0 ==> d == blocked
  {
    var ds := Available(blocked);
    if |ds| == 0 then blocked else ds[pick]
  }

  /** After a bump the enemy never heads back into what it hit, and every
      other direction can be drawn. */
  lemma TurnAvoidsObstacle(n: Vec2, pick: nat)
    requires pick < 3
    ensures ChooseAvailable(BlockedDirection(n), pick) in DIRECTIONS
    ensures ChooseAvailable(BlockedDirection(n), pick) != BlockedDirection(n)
    ensures forall e :: e in DIRECTIONS && e != BlockedDirection(n) ==>
      exists i :: 0 <= i < 3 && ChooseAvailable(BlockedDirection(n), i) == e
  {
    var b := BlockedDirection(n);
    AvailableSize(b);
    forall e | e in DIRECTIONS && e != b
      ensures exists i :: 0 <= i < 3 && ChooseAvailable(b, i) == e
    {
      var ds := Available(b);
      var i :| 0 <= i < |ds| && ds[i] == e;
      assert ChooseAvailable(b, i) == e;
    }
  }
}
