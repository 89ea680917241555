/** The speedline particle of entities/speedlines.py and the sprite group that
    owns the live particles of a play state. */
module Speedlines {
  import opened Geometry

  /** Every speedline lives this many frames. */
  const LIFETIME: int := 30

  /** pygame's `Surface.set_alpha` stores its argument clamped into 0..255. */
  function SurfaceAlpha(v: int): (a: int)
    ensures 0 <= a <= 255
    ensures 0 <= v <= 255 ==> a == v
    ensures v < 0 ==> a == 0
    ensures v > 255 ==> a == 255
  {
    if v < 0 then 0 else if v > 255 then 255 else v
  }

  /** The alpha a speedline is given at a given age: full at birth, fading
      linearly to nothing at the end of its lifetime. */
  function FadeAlpha(age: int): int {
    SurfaceAlpha(255 - Trunc(255.0 * (age as real / LIFETIME as real)))
  }

  /** For a non-negative age, the truncated fraction of 255 is the integer
      quotient `255 * age / lifetime`. */
  lemma FadeFraction(age: int)
    requires 0 <= age
    ensures Trunc(255.0 * (age as real / LIFETIME as real)) == (255 * age) / LIFETIME
  {
    var n := 255 * age;
    var q := n / LIFETIME;
    assert q * LIFETIME <= n < (q + 1) * LIFETIME;
    assert 255.0 * (age as real / LIFETIME as real) == n as real / LIFETIME as real;
  }

  lemma DivMonotone(a: int, b: int, d: int)
    requires 0 <= a <= b && d > 0
    ensures a / d <= b / d
  {
    var qa, qb := a / d, b / d;
    assert qa * d <= a && b < qb * d + d;
    if qa > qb {
      MulMonotone(qb + 1, qa, d);
      assert false;
    }
  }

  lemma MulMonotone(x: int, y: int, k: int)
    requires x <= y && k >= 0
    ensures x * k <= y * k
  {
  }

  /** Within its lifetime a speedline is not clamped: the alpha is 255 minus
      the elapsed fraction of 255, rounded down. */
  lemma FadeAlphaWithinLifetime(age: int)
    requires 0 <= age <= LIFETIME
    ensures FadeAlpha(age) == 255 - (255 * age) / LIFETIME
  {
    FadeFraction(age);
  }

  /** The alpha starts at 255, never grows as the speedline ages, and is 0
      once the lifetime is reached. */
  lemma FadeAlphaNonIncreasing(a: int, b: int)
    requires 0 <= a <= b
    ensures FadeAlpha(b) <= FadeAlpha(a)
    ensures FadeAlpha(0) == 255
    ensures b >= LIFETIME ==> FadeAlpha(b) == 0
  {
    FadeFraction(0);
    FadeFraction(a);
    FadeFraction(b);
    DivMonotone(255 * a, 255 * b, LIFETIME);
  }

  /** A vector scaled by a number, as `direction * factor` does. */
  function Scale(v: (real, real), k: real): (real, real) {
    (v.0 * k, v.1 * k)
  }

  /** `rect.center = int(center + velocity)`: each coordinate is moved by the
      velocity and truncated toward zero. */
  function MoveCenter(c: (int, int), v: (real, real)): (int, int) {
    (Trunc(c.0 as real + v.0), Trunc(c.1 as real + v.1))
  }

  /** A speedline spawned with direction (0, g) and a speed factor in [8, 12]
      keeps its x-coordinate and moves between 8 and 12 pixels per frame in
      the direction g. */
  lemma MoveAlongGravity(c: (int, int), g: int, factor: real)
    requires g == 1 || g == -1
    requires 8.0 <= factor <= 12.0
    ensures MoveCenter(c, Scale((0.0, g as real), factor)).0 == c.0
    ensures 8 <= g * (MoveCenter(c, Scale((0.0, g as real), factor)).1 - c.1) <= 12
  {
    assert Scale((0.0, g as real), factor) == (0.0, g as real * factor);
    var y := c.1 as real + g as real * factor;
    var n := Trunc(y);
    assert c.0 as real + 0.0 == c.0 as real;
    if g == 1 {
      assert 8.0 + c.1 as real <= y <= 12.0 + c.1 as real;
    } else {
      assert c.1 as real - 12.0 <= y <= c.1 as real - 8.0;
    }
  }

  /** pygame Sprite.kill leaves the group once the speedline has expired. */
  predicate Expired(age: int, lifetime: int) {
    age >= lifetime
  }

  predicate Distinct(ss: seq<Speedline>) {
    forall i, j :: 0 <= i < j < |ss| ==> ss[i] != ss[j]
  }

  /** `group.remove(s)`: the group without `s`, in the same order. */
  function Without(ss: seq<Speedline>, s: Speedline): (r: seq<Speedline>)
    ensures s !in r && |r| <= |ss|
    ensures s !in ss ==> r == ss
  {
    if ss == [] then []
    else (if ss[0] == s then [] else [ss[0]]) + Without(ss[1..], s)
  }

  /** One step of `Without`: the first element, then the rest. */
  lemma WithoutCons(ss: seq<Speedline>, s: Speedline)
    requires ss != []
    ensures Without(ss, s) == (if ss[0] == s then [] else [ss[0]]) + Without(ss[1..], s)
  {
  }

  lemma {:induction false} WithoutAppend(a: seq<Speedline>, b: seq<Speedline>, s: Speedline)
    ensures Without(a + b, s) == Without(a, s) + Without(b, s)
  {
    if a == [] {
      assert a + b == b;
    } else {
      var head := if a[0] == s then [] else [a[0]];
      calc {
        Without(a + b, s);
      == { assert (a + b)[0] == a[0] && (a + b)[1..] == a[1..] + b;
           WithoutCons(a + b, s); }
        head + Without(a[1..] + b, s);
      == { WithoutAppend(a[1..], b, s); }
        head + (Without(a[1..], s) + Without(b, s));
      ==
        (head + Without(a[1..], s)) + Without(b, s);
      == { WithoutCons(a, s); }
        Without(a, s) + Without(b, s);
      }
    }
  }

  /** Removing a speedline that occurs once, between two stretches that do not
      hold it, joins the two stretches. */
  lemma WithoutSplit(a: seq<Speedline>, s: Speedline, b: seq<Speedline>)
    requires s !in a && s !in b
    ensures Without(a + [s] + b, s) == a + b
  {
    var front := a + [s];
    assert [s][1..] == [];
    assert Without([s], s) == [];
    assert Without(a, s) == a;
    assert Without(b, s) == b;
    WithoutAppend(a, [s], s);
    assert Without(front, s) == a;
    WithoutAppend(front, b, s);
  }

  /** The speedlines of `ss`, in order, that have not expired. */
  function Alive(ss: seq<Speedline>): (r: seq<Speedline>)
    reads ss
    ensures |r| <= |ss|
  {
    if ss == [] then []
    else
      var last := ss[|ss| - 1];
      Alive(ss[..|ss| - 1]) + (if Expired(last.age, last.lifetime) then [] else [last])
  }

  /** A speedline survives the filter exactly when it is present and has
      not expired. */
  lemma {:induction false} AliveMember(ss: seq<Speedline>, t: Speedline)
    ensures t in Alive(ss) <==> t in ss && !Expired(t.age, t.lifetime)
  {
    if ss != [] {
      var init := ss[..|ss| - 1];
      AliveMember(init, t);
      assert ss == init + [ss[|ss| - 1]];
    }
  }

  /** The members of `ss` whose flag in `keep` is set, in order. */
  function Keep(ss: seq<Speedline>, keep: seq<bool>): (r: seq<Speedline>)
    requires |keep| == |ss|
  {
    if ss == [] then []
    else
      var n := |ss| - 1;
      Keep(ss[..n], keep[..n]) + (if keep[n] then [ss[n]] else [])
  }

  lemma {:induction false} KeepSubset(ss: seq<Speedline>, keep: seq<bool>, t: Speedline)
    requires |keep| == |ss|
    ensures t in Keep(ss, keep) ==> t in ss
  {
    if ss != [] {
      var n := |ss| - 1;
      KeepSubset(ss[..n], keep[..n], t);
    }
  }

  /** Keeping one more member extends the kept prefix by that member alone. */
  lemma KeepStep(ss: seq<Speedline>, keep: seq<bool>, i: int, alive: bool)
    requires 0 <= i < |ss| && |keep| == i
    ensures Keep(ss[..i + 1], keep + [alive]) == Keep(ss[..i], keep) + (if alive then [ss[i]] else [])
  {
    assert ss[..i + 1][..i] == ss[..i];
    assert (keep + [alive])[..i] == keep;
  }

  /** In a list without repetitions, the member at `i` occurs neither before
      nor after position `i`. */
  lemma DistinctSplit(ss: seq<Speedline>, keep: seq<bool>, i: int)
    requires Distinct(ss) && 0 <= i < |ss| && |keep| == i
    ensures ss[i] !in Keep(ss[..i], keep) && ss[i] !in ss[i + 1..]
    ensures ss[i..] == [ss[i]] + ss[i + 1..]
  {
    KeepSubset(ss[..i], keep, ss[i]);
  }

  /** One step of a group update on the member list: `s`, between the
      processed stretch `done` and the unprocessed `rest`, stays in place when
      it is alive and removes itself otherwise. */
  lemma StepSprites(done: seq<Speedline>, s: Speedline, rest: seq<Speedline>, alive: bool,
                    before: seq<Speedline>, after: seq<Speedline>)
    requires s !in done && s !in rest
    requires before == done + [s] + rest
    requires after == if alive then before else Without(before, s)
    ensures after == done + (if alive then [s] else []) + rest
  {
    if !alive {
      WithoutSplit(done, s, rest);
    }
  }

  /** Filtering by the current ages is keeping the members flagged alive. */
  lemma {:induction false} AliveKeep(ss: seq<Speedline>, keep: seq<bool>)
    requires |keep| == |ss|
    requires forall k :: 0 <= k < |ss| ==> keep[k] == !Expired(ss[k].age, ss[k].lifetime)
    ensures Alive(ss) == Keep(ss, keep)
  {
    if ss != [] {
      var n := |ss| - 1;
      AliveKeep(ss[..n], keep[..n]);
    }
  }

  lemma {:induction false} AliveDistinct(ss: seq<Speedline>)
    requires Distinct(ss)
    ensures Distinct(Alive(ss))
  {
    if ss != [] {
      var init := ss[..|ss| - 1];
      assert Distinct(init);
      AliveDistinct(init);
      var last := ss[|ss| - 1];
      assert last !in init;
      AliveMember(init, last);
    }
  }

  /** Nothing survives the filter when every speedline has expired. */
  lemma {:induction false} AliveAllExpired(ss: seq<Speedline>)
    requires forall k :: 0 <= k < |ss| ==> Expired(ss[k].age, ss[k].lifetime)
    ensures Alive(ss) == []
  {
    if ss != [] {
      AliveAllExpired(ss[..|ss| - 1]);
    }
  }

  /** Filtering a list without repetitions whose ages are not negative gives
      a list fit to be a group's members. */
  lemma AliveValid(ss: seq<Speedline>)
    requires Distinct(ss)
    requires forall k :: 0 <= k < |ss| ==> 0 <= ss[k].age
    ensures Distinct(Alive(ss))
    ensures forall k :: 0 <= k < |Alive(ss)| ==>
              0 <= Alive(ss)[k].age && !Expired(Alive(ss)[k].age, Alive(ss)[k].lifetime)
  {
    AliveDistinct(ss);
    forall k | 0 <= k < |Alive(ss)|
      ensures 0 <= Alive(ss)[k].age && !Expired(Alive(ss)[k].age, Alive(ss)[k].lifetime)
    {
      AliveMember(ss, Alive(ss)[k]);
    }
  }

  /** The state of a speedline that changes from frame to frame. */
  datatype Particle = Particle(age: int, rect: Rect, alpha: int, offset: (int, int))

  /** What one `Speedline.update` does to that state: one frame older, the
      centre moved by the velocity, the alpha faded to the new age, the camera
      offset untouched. */
  function Advance(p: Particle, velocity: (real, real)): (q: Particle)
    ensures q.age == p.age + 1
    ensures q.rect.Center() == MoveCenter(p.rect.Center(), velocity)
    ensures q.rect.w == p.rect.w && q.rect.h == p.rect.h
    ensures q.alpha == FadeAlpha(q.age)
    ensures q.offset == p.offset
  {
    var moved := p.rect.WithCenter(MoveCenter(p.rect.Center(), velocity));
    Particle(p.age + 1, moved, FadeAlpha(p.age + 1), p.offset)
  }

  /** One speed line: a thin vertical streak that moves at a constant
      velocity and fades out over its lifetime. */
  class Speedline {
    const lifetime: int := LIFETIME
    var age: int
    /** The rectangle of its image: `thickness` wide, `length` tall. */
    var rect: Rect
    /** The alpha every pixel of the image was filled with. */
    const fillAlpha: int
    /** The alpha of the whole image (`image.set_alpha`). */
    var alpha: int
    const velocity: (real, real)
    /** Camera offset, rewritten by the play state each time it draws. */
    var offset: (int, int)

    function State(): Particle
      reads this
    {
      Particle(age, rect, alpha, offset)
    }

    /** `Speedline(position, direction)`; the four random draws are passed in. */
    constructor (position: (int, int), direction: (real, real),
                 length: int, thickness: int, fill: int, factor: real)
      requires 100 <= length <= 200
      requires 1 <= thickness <= 3
      requires 150 <= fill <= 255
      requires 8.0 <= factor <= 12.0
      ensures age == 0 && lifetime == 30 && offset == (0, 0)
      ensures rect.w == thickness && rect.h == length && rect.Center() == position
      ensures fillAlpha == fill && alpha == 255
      ensures velocity == Scale(direction, factor)
    {
      age := 0;
      fillAlpha := fill;
      rect := Rect(0, 0, thickness, length).WithCenter(position);
      velocity := Scale(direction, factor);
      offset := (0, 0);
      alpha := 255;
    }

    /** One frame: age by one, move by the velocity, fade, and leave `group`
        (the group that owns it) once the lifetime is used up. */
    method Update(group: SpeedlineGroup)
      modifies this, group
      ensures State() == Advance(old(State()), velocity)
      ensures group.sprites == if Expired(age, lifetime) then Without(old(group.sprites), this)
                               else old(group.sprites)
    {
      age := age + 1;
      var center := rect.Center();
      rect := rect.WithCenter(MoveCenter(center, velocity));
      alpha := FadeAlpha(age);
      if age >= lifetime {
        // kill(): leave the owning group
        group.Remove(this);
      }
    }
  }

  /** The states of the speedlines of `ss`, position by position. */
  function States(ss: seq<Speedline>): (r: seq<Particle>)
    reads ss
    ensures |r| == |ss|
    ensures forall k :: 0 <= k < |ss| ==> r[k] == ss[k].State()
  {
    if ss == [] then [] else States(ss[..|ss| - 1]) + [ss[|ss| - 1].State()]
  }

  /** The pygame sprite group holding the live speedlines, in insertion order. */
  class SpeedlineGroup {
    var sprites: seq<Speedline>

    /** A sprite is in the group at most once, and no member has outlived
        its lifetime. */
    ghost predicate Valid()
      reads this, sprites
    {
      && Distinct(sprites)
      && forall k :: 0 <= k < |sprites| ==> 0 <= sprites[k].age && !Expired(sprites[k].age, sprites[k].lifetime)
    }

    constructor ()
      ensures Valid() && sprites == []
    {
      sprites := [];
    }

    /** `group.add(s)`: a sprite already present is not added twice. */
    method Add(s: Speedline)
      modifies this
      ensures sprites == if s in old(sprites) then old(sprites) else old(sprites) + [s]
    {
      if s !in sprites {
        sprites := sprites + [s];
      }
    }

    method Remove(s: Speedline)
      modifies this
      ensures sprites == Without(old(sprites), s)
    {
      sprites := Without(sprites, s);
    }

    /** How far `group.update()` has got through the list `snapshot` it
        started from, whose members then had the states `entry`: the first
        `i` members have been updated, the rest not yet, and of the updated
        ones exactly those flagged in `keep` are still in the group. */
    ghost predicate Progress(snapshot: seq<Speedline>, entry: seq<Particle>, keep: seq<bool>, i: int)
      reads this, snapshot
    {
      && 0 <= i <= |snapshot| == |entry| && |keep| == i && Distinct(snapshot)
      && sprites == Keep(snapshot[..i], keep) + snapshot[i..]
      && (forall k :: 0 <= k < i ==> keep[k] == !Expired(entry[k].age + 1, LIFETIME))
      && (forall k :: 0 <= k < i ==> snapshot[k].State() == Advance(entry[k], snapshot[k].velocity))
      && (forall k :: i <= k < |snapshot| ==> snapshot[k].State() == entry[k])
    }

    /** One turn of `group.update()`: update the member at position `i`. */
    method UpdateMember(snapshot: seq<Speedline>, ghost entry: seq<Particle>, ghost keep: seq<bool>, i: int)
      returns (ghost keep': seq<bool>)
      requires Progress(snapshot, entry, keep, i) && i < |snapshot|
      modifies this, snapshot[i]
      ensures Progress(snapshot, entry, keep', i + 1)
    {
      var s := snapshot[i];
      ghost var done := Keep(snapshot[..i], keep);
      DistinctSplit(snapshot, keep, i);
      ghost var before := sprites;
      s.Update(this);
      ghost var alive := !Expired(s.age, s.lifetime);
      StepSprites(done, s, snapshot[i + 1..], alive, before, sprites);
      KeepStep(snapshot, keep, i, alive);
      keep' := keep + [alive];
      assert s.State() == Advance(entry[i], s.velocity);
      assert forall k :: 0 <= k < |snapshot| && k != i ==> snapshot[k] != s;
      assert forall k :: 0 <= k < |snapshot| && k != i ==> snapshot[k].State() == old(snapshot[k].State());
      assert forall k :: 0 <= k < i ==> keep'[k] == keep[k];
    }

    /** `group.update()`: update every member once, in order; expired members
        remove themselves. */
    method Update()
      requires Valid()
      modifies this, sprites
      ensures Valid()
      ensures sprites == Alive(old(sprites))
      ensures forall s :: s in old(sprites) ==> s.State() == Advance(old(s.State()), s.velocity)
    {
      var snapshot := sprites;
      ghost var entry := States(snapshot);
      ghost var keep: seq<bool> := [];
      var i := 0;
      assert snapshot[..0] == [] && snapshot[0..] == snapshot;
      assert forall k :: 0 <= k < |entry| ==> 0 <= entry[k].age;
      while i < |snapshot|
        invariant Progress(snapshot, entry, keep, i)
      {
        keep := UpdateMember(snapshot, entry, keep, i);
        i := i + 1;
      }
      Completed(snapshot, entry, keep);
    }

    /** Once every member has been updated, the group holds the survivors in
        their old order and is valid again. */
    lemma Completed(snapshot: seq<Speedline>, entry: seq<Particle>, keep: seq<bool>)
      requires Progress(snapshot, entry, keep, |snapshot|)
      requires forall k :: 0 <= k < |entry| ==> 0 <= entry[k].age
      ensures sprites == Alive(snapshot) && Valid()
    {
      assert snapshot[..|snapshot|] == snapshot;
      assert forall k :: 0 <= k < |snapshot| ==> 0 <= snapshot[k].age;
      AliveKeep(snapshot, keep);
      AliveValid(snapshot);
    }
  }

  /** Updating a group `n` times keeps it valid and ages each survivor by
      `n`; a member survives exactly when it is still younger than its
      lifetime, so after a full lifetime of updates nothing is left. */
  method UpdateRepeatedly(group: SpeedlineGroup, n: nat)
    requires group.Valid()
    modifies group, group.sprites
    ensures group.Valid()
    ensures forall s :: s in group.sprites ==> s in old(group.sprites) && s.age == old(s.age) + n
    ensures forall s :: s in old(group.sprites) && old(s.age) + n < LIFETIME ==> s in group.sprites
    ensures n >= LIFETIME ==> group.sprites == []
  {
    ghost var start := group.sprites;
    assert forall s :: s in start ==> 0 <= old(s.age);
    for k := 0 to n
      invariant group.Valid()
      invariant forall s :: s in group.sprites ==> s in start && s.age == old(s.age) + k
      invariant forall s :: s in start && old(s.age) + k < LIFETIME ==> s in group.sprites
      invariant k >= LIFETIME ==> group.sprites == []
    {
      ghost var before := group.sprites;
      group.Update();
      forall s | s in group.sprites
        ensures s in before
      {
        AliveMember(before, s);
      }
      forall s | s in start && old(s.age) + k + 1 < LIFETIME
        ensures s in group.sprites
      {
        AliveMember(before, s);
      }
      if k + 1 >= LIFETIME {
        AliveAllExpired(before);
      }
    }
  }
}
