/** The 2-D camera, moved 15 units per held key on every sync. */
module Camera {
  import opened Wasd

  datatype Camera = Camera(pos: (real, real))

  const Step: real := 15.0

  /** `Camera::new`: at the origin. */
  function New(): (c: Camera)
    ensures c.pos == (0.0, 0.0)
  {
    Camera((0.0, 0.0))
  }

  /** `sync`: W up (y - 15), S down (y + 15), A left (x - 15), D right (x + 15), checked in that order. */
  function Sync(c: Camera, k: WasdKeys): (r: Camera)
    ensures r.pos.0 == c.pos.0 + Step * Axis(k.a, k.d) as real
    ensures r.pos.1 == c.pos.1 + Step * Axis(k.w, k.s) as real
  {
    var y1 := if k.w then c.pos.1 - Step else c.pos.1;
    var y2 := if k.s then y1 + Step else y1;
    var x1 := if k.a then c.pos.0 - Step else c.pos.0;
    var x2 := if k.d then x1 + Step else x1;
    Camera((x2, y2))
  }

  /** Holding both keys of an axis, or neither, leaves that coordinate where it was. */
  lemma OppositeKeysCancel(c: Camera, k: WasdKeys)
    ensures k.w == k.s ==> Sync(c, k).pos.1 == c.pos.1
    ensures k.a == k.d ==> Sync(c, k).pos.0 == c.pos.0
    ensures k == WasdKeys(false, false, false, false) ==> Sync(c, k) == c
  {
  }

  /** Syncing n times with the same keys moves n steps. */
  function SyncTimes(c: Camera, k: WasdKeys, n: nat): Camera
  {
    if n == 0 then c else Sync(SyncTimes(c, k, n - 1), k)
  }

  lemma {:induction false} SyncTimesMoves(c: Camera, k: WasdKeys, n: nat)
    ensures SyncTimes(c, k, n).pos ==
      (c.pos.0 + (n * Axis(k.a, k.d)) as real * Step, c.pos.1 + (n * Axis(k.w, k.s)) as real * Step)
  {
    if n > 0 {
      SyncTimesMoves(c, k, n - 1);
    }
  }
}
