/**
 * The player sprite's decisions: which animation to show for a velocity
 * and an attack flag, which way to face, which sheet row and texture to
 * draw from, and the animation frame counter advanced on every sync.
 */
module PlayerSprite {
  import opened Directions

  datatype SpriteState = Idle | IdleAttack | Walk | WalkAttack | Run | RunAttack | Hurt | Death

  /** The game's texture identifiers (the orc sheets and the rest). */
  datatype TextureId =
    | Orc3Attack | Orc3Death | Orc3Hurt | Orc3Idle | Orc3Run | Orc3RunAttack | Orc3Walk | Orc3WalkAttack
    | TileRed | TileGreen | TileBlue | TileNotAvailable | DungeonTileset

  /** What `sync` reads from the player: its position, velocity and attack flag. */
  datatype PlayerView = PlayerView(position: (real, real), velocity: (real, real), isAttack: bool)

  datatype Sprite = Sprite(location: (real, real), direction: Direction, state: SpriteState, animationFrame: real)

  const WalkSpeedThreshold: real := 0.5
  const RunSpeedThreshold: real := 2.5
  const AnimationSpeed: real := 0.15
  const AnimationFrames: nat := 4

  /** `PlayerSprite::new`: at the origin, facing down, idle, on frame 0. */
  function New(): (s: Sprite)
    ensures s.location == (0.0, 0.0) && s.direction == Down && s.state == Idle && s.animationFrame == 0.0
    ensures 0.0 <= s.animationFrame < AnimationFrames as real
  {
    Sprite((0.0, 0.0), Down, Idle, 0.0)
  }

  function Abs(r: real): real {
    if r < 0.0 then -r else r
  }

  /** The squared speed, `magnitude2` of the velocity. */
  function SpeedSq(v: (real, real)): real {
    v.0 * v.0 + v.1 * v.1
  }

  /** The gait a state animates, ignoring whether it attacks. */
  datatype Gait = Standing | Walking | Running | Other

  function GaitOf(s: SpriteState): Gait {
    match s
    case Idle | IdleAttack => Standing
    case Walk | WalkAttack => Walking
    case Run | RunAttack => Running
    case Hurt | Death => Other
  }

  predicate IsAttack(s: SpriteState) {
    s == IdleAttack || s == WalkAttack || s == RunAttack
  }

  /** A state is determined by its gait and whether it attacks. */
  lemma GaitAndAttackDetermineState(s1: SpriteState, s2: SpriteState)
    requires GaitOf(s1) != Other
    requires GaitOf(s1) == GaitOf(s2) && IsAttack(s1) == IsAttack(s2)
    ensures s1 == s2
  {
  }

  /** `find_state`: run from |v|² ≥ 2.5, walk from 0.5, else idle; the attacking variant iff attacking. */
  function FindState(p: PlayerView): (s: SpriteState)
    ensures GaitOf(s) == (if SpeedSq(p.velocity) >= RunSpeedThreshold then Running
                          else if SpeedSq(p.velocity) >= WalkSpeedThreshold then Walking
                          else Standing)
    ensures IsAttack(s) <==> p.isAttack
    ensures s != Hurt && s != Death
  {
    var speed := SpeedSq(p.velocity);
    if speed >= RunSpeedThreshold then
      if p.isAttack then RunAttack else Run
    else if speed >= WalkSpeedThreshold then
      if p.isAttack then WalkAttack else Walk
    else if p.isAttack then IdleAttack
    else Idle
  }

  /** Speeding up never selects a slower gait. */
  lemma FindStateMonotone(p: PlayerView, q: PlayerView)
    requires SpeedSq(p.velocity) <= SpeedSq(q.velocity) && p.isAttack == q.isAttack
    ensures GaitRank(GaitOf(FindState(p))) <= GaitRank(GaitOf(FindState(q)))
  {
  }

  function GaitRank(g: Gait): nat {
    match g
    case Standing => 0
    case Walking => 1
    case Running => 2
    case Other => 3
  }

  /**
   * `find_direction`: face along x when x strictly dominates, otherwise up
   * or down by the sign of y; a velocity with no x component faces down.
   */
  function FindDirection(p: PlayerView): (d: Direction)
    ensures p.velocity.0 == 0.0 ==> d == Down
    ensures d == Left <==> p.velocity.0 < 0.0 && Abs(p.velocity.0) > Abs(p.velocity.1)
    ensures d == Right <==> p.velocity.0 > 0.0 && Abs(p.velocity.0) > Abs(p.velocity.1)
    ensures d == Up <==> p.velocity.0 != 0.0 && Abs(p.velocity.0) <= Abs(p.velocity.1) && p.velocity.1 < 0.0
  {
    var v := p.velocity;
    if v.0 < 0.0 then
      if Abs(v.0) > Abs(v.1) then Left
      else if v.1 < 0.0 then Up else Down
    else if v.0 > 0.0 then
      if Abs(v.0) > Abs(v.1) then Right
      else if v.1 < 0.0 then Up else Down
    else Down
  }

  /** Mirroring the velocity left-to-right swaps Left and Right and keeps Up and Down. */
  lemma FindDirectionMirror(p: PlayerView)
    ensures var d := FindDirection(p);
      FindDirection(p.(velocity := (-p.velocity.0, p.velocity.1))) ==
        (if d == Left then Right else if d == Right then Left else d)
  {
  }

  /** `find_texture_row`: the sheet row for a facing. */
  function FindTextureRow(d: Direction): (row: nat)
    ensures row < 4
  {
    match d
    case Up => 1
    case Down => 0
    case Left => 2
    case Right => 3
  }

  /** The facing drawn from a sheet row; the inverse of FindTextureRow. */
  function DirectionOfRow(row: nat): Direction
    requires row < 4
  {
    if row == 0 then Down else if row == 1 then Up else if row == 2 then Left else Right
  }

  /** FindTextureRow is a bijection from the four facings onto the rows 0..3. */
  lemma TextureRowBijection(d: Direction, row: nat)
    requires row < 4
    ensures DirectionOfRow(FindTextureRow(d)) == d
    ensures FindTextureRow(DirectionOfRow(row)) == row
  {
  }

  /** `find_texture_id`: the orc sheet for each state. */
  function FindTextureId(s: SpriteState): (t: TextureId)
    ensures t.Orc3Attack? || t.Orc3Death? || t.Orc3Hurt? || t.Orc3Idle? || t.Orc3Run? || t.Orc3RunAttack?
      || t.Orc3Walk? || t.Orc3WalkAttack?
  {
    match s
    case Idle => Orc3Idle
    case IdleAttack => Orc3Attack
    case Walk => Orc3Walk
    case WalkAttack => Orc3WalkAttack
    case Run => Orc3Run
    case RunAttack => Orc3RunAttack
    case Hurt => Orc3Hurt
    case Death => Orc3Death
  }

  /** Distinct states are drawn from distinct textures. */
  lemma TextureIdInjective(s1: SpriteState, s2: SpriteState)
    requires FindTextureId(s1) == FindTextureId(s2)
    ensures s1 == s2
  {
  }

  /** The frame counter's step: advance by 0.15 and wrap to 0 on reaching 4. */
  function NextFrame(f: real): (g: real)
    requires 0.0 <= f < AnimationFrames as real
    ensures 0.0 <= g < AnimationFrames as real
    ensures g == 0.0 || g == f + AnimationSpeed
    ensures g == 0.0 <==> f + AnimationSpeed >= AnimationFrames as real
  {
    var g := f + AnimationSpeed;
    if g >= AnimationFrames as real then 0.0 else g
  }

  /** `sync`: follow the player's position, then choose facing and state, then step the frame. */
  function Sync(s: Sprite, p: PlayerView): (t: Sprite)
    requires 0.0 <= s.animationFrame < AnimationFrames as real
    ensures t.location == p.position
    ensures t.direction == FindDirection(p) && t.state == FindState(p)
    ensures 0.0 <= t.animationFrame < AnimationFrames as real
  {
    Sprite(p.position, FindDirection(p), FindState(p), NextFrame(s.animationFrame))
  }

  /** The frame counter after n steps from 0. */
  function FrameAfter(n: nat): (f: real)
    ensures 0.0 <= f < AnimationFrames as real
  {
    if n == 0 then 0.0 else NextFrame(FrameAfter(n - 1))
  }

  /** Starting from 0, the counter climbs by 0.15 for 26 steps and wraps on the 27th. */
  lemma {:induction false} FrameCycle(n: nat)
    requires n <= 27
    ensures n < 27 ==> FrameAfter(n) == AnimationSpeed * n as real
    ensures n == 27 ==> FrameAfter(n) == 0.0
  {
    if n > 0 {
      FrameCycle(n - 1);
    }
  }

  /** The frame counter is periodic with period 27. */
  lemma {:induction false} FramePeriodic(n: nat)
    ensures FrameAfter(n + 27) == FrameAfter(n)
  {
    if n == 0 {
      FrameCycle(27);
    } else {
      FramePeriodic(n - 1);
    }
  }
}
