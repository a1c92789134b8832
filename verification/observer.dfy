/**
 * The 3-D observer's numeric state: the orthographic bounds recomputed on
 * a window resize, and the manual pan that moves eye and target together.
 */
module Observer {
  import opened Wasd

  datatype Point3 = Point3(x: real, y: real, z: real)

  datatype Observer = Observer(
    eye: Point3, target: Point3, up: Point3,
    left: real, right: real, bottom: real, top: real, near: real, far: real)

  /** Window sizes are unsigned 32-bit. */
  type U32 = x: int | 0 <= x < 0x1_0000_0000

  /** Window pixels per world unit: 32-pixel tiles drawn five times larger. */
  const PixelsPerTile: nat := 32 * 5

  const CamManualSpeed: real := 0.065

  /**
   * `handle_resize`: half the window size, in whole tiles (both divisions
   * truncate), becomes a view volume centred on the eye; depth is -10..10.
   */
  function HandleResize(o: Observer, w: U32, h: U32): (r: Observer)
    ensures r.right == (w / 2 / PixelsPerTile) as real && r.left == -r.right
    ensures r.top == (h / 2 / PixelsPerTile) as real && r.bottom == -r.top
    ensures r.near == -10.0 && r.far == 10.0
    ensures r.eye == o.eye && r.target == o.target && r.up == o.up
  {
    var x := (w / 2 / PixelsPerTile) as real;
    var y := (h / 2 / PixelsPerTile) as real;
    o.(left := -x, right := x, bottom := -y, top := y, near := -10.0, far := 10.0)
  }

  /** The two truncating divisions are one division by 320, so the view spans at most the window. */
  lemma ResizeBounds(o: Observer, w: U32, h: U32)
    ensures HandleResize(o, w, h).right == (w / (2 * PixelsPerTile)) as real
    ensures HandleResize(o, w, h).top == (h / (2 * PixelsPerTile)) as real
    ensures (HandleResize(o, w, h).right - HandleResize(o, w, h).left) * PixelsPerTile as real <= w as real
    ensures (HandleResize(o, w, h).top - HandleResize(o, w, h).bottom) * PixelsPerTile as real <= h as real
  {
    DivDiv(w);
    DivDiv(h);
  }

  lemma DivDiv(n: nat)
    ensures n / 2 / 160 == n / 320
    ensures 2 * (n / 320) * 160 <= n
  {
    var q := n / 320;
    var r := n % 320;
    assert n == 320 * q + r && 0 <= r < 320;
    assert n / 2 == 160 * q + r / 2;
    assert (160 * q + r / 2) / 160 == q;
  }

  function Offset(a: Point3, b: Point3): Point3 {
    Point3(a.x - b.x, a.y - b.y, a.z - b.z)
  }

  /** `apply_input`: W and S pan along z, A and D along x, 0.065 per key; eye and target move together. */
  function ApplyInput(o: Observer, k: WasdKeys): (r: Observer)
    ensures Offset(r.eye, r.target) == Offset(o.eye, o.target)
    ensures r.eye.y == o.eye.y && r.target.y == o.target.y
    ensures r.eye.x == o.eye.x + CamManualSpeed * Axis(k.a, k.d) as real
    ensures r.eye.z == o.eye.z + CamManualSpeed * Axis(k.w, k.s) as real
    ensures r == o.(eye := r.eye, target := r.target)
  {
    var o1 := if k.w then o.(eye := o.eye.(z := o.eye.z - CamManualSpeed), target := o.target.(z := o.target.z - CamManualSpeed)) else o;
    var o2 := if k.s then o1.(eye := o1.eye.(z := o1.eye.z + CamManualSpeed), target := o1.target.(z := o1.target.z + CamManualSpeed)) else o1;
    var o3 := if k.a then o2.(eye := o2.eye.(x := o2.eye.x - CamManualSpeed), target := o2.target.(x := o2.target.x - CamManualSpeed)) else o2;
    if k.d then o3.(eye := o3.eye.(x := o3.eye.x + CamManualSpeed), target := o3.target.(x := o3.target.x + CamManualSpeed)) else o3
  }

  /** Opposite keys cancel, and with no key held nothing moves. */
  lemma OppositeKeysCancel(o: Observer, k: WasdKeys)
    ensures k.w == k.s ==> ApplyInput(o, k).eye.z == o.eye.z && ApplyInput(o, k).target.z == o.target.z
    ensures k.a == k.d ==> ApplyInput(o, k).eye.x == o.eye.x && ApplyInput(o, k).target.x == o.target.x
    ensures k == WasdKeys(false, false, false, false) ==> ApplyInput(o, k) == o
  {
  }

  /** Resizing and panning touch disjoint fields, so they commute. */
  lemma ResizeAndPanCommute(o: Observer, k: WasdKeys, w: U32, h: U32)
    ensures HandleResize(ApplyInput(o, k), w, h) == ApplyInput(HandleResize(o, w, h), k)
  {
  }
}
