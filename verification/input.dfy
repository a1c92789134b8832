/**
 * The keyboard latch: a key-down event sets the flag of an arrow key or the
 * space bar, the matching key-up clears it, and every other event is ignored.
 */
module Input {
  import opened Options

  datatype Keycode = Up | Down | Left | Right | Space | OtherKey(code: int)

  /** The events the latch looks at; a key event may carry no key code. */
  datatype Event = KeyDown(keycode: Option<Keycode>) | KeyUp(keycode: Option<Keycode>) | OtherEvent

  datatype KeyState = KeyState(up: bool, down: bool, left: bool, right: bool, space: bool)

  /** The keys the latch tracks. */
  predicate Tracked(k: Keycode) {
    !k.OtherKey?
  }

  /** The flag of a tracked key. */
  function Held(s: KeyState, k: Keycode): bool
    requires Tracked(k)
  {
    match k
    case Up => s.up
    case Down => s.down
    case Left => s.left
    case Right => s.right
    case Space => s.space
  }

  /** The state with the flag of k set to v and every other flag kept. */
  function SetHeld(s: KeyState, k: Keycode, v: bool): (r: KeyState)
    requires Tracked(k)
    ensures Held(r, k) == v
    ensures forall j :: Tracked(j) && j != k ==> Held(r, j) == Held(s, j)
  {
    match k
    case Up => s.(up := v)
    case Down => s.(down := v)
    case Left => s.(left := v)
    case Right => s.(right := v)
    case Space => s.(space := v)
  }

  /** `Input::new`: nothing held. */
  function New(): (s: KeyState)
    ensures forall k :: Tracked(k) ==> !Held(s, k)
  {
    KeyState(false, false, false, false, false)
  }

  /** `handle_key_event`. */
  function HandleKeyEvent(s: KeyState, e: Event): (r: KeyState)
    ensures e.KeyDown? && e.keycode.Some? && Tracked(e.keycode.value) ==>
      Held(r, e.keycode.value) && forall j :: Tracked(j) && j != e.keycode.value ==> Held(r, j) == Held(s, j)
    ensures e.KeyUp? && e.keycode.Some? && Tracked(e.keycode.value) ==>
      !Held(r, e.keycode.value) && forall j :: Tracked(j) && j != e.keycode.value ==> Held(r, j) == Held(s, j)
    ensures !((e.KeyDown? || e.KeyUp?) && e.keycode.Some? && Tracked(e.keycode.value)) ==> r == s
  {
    match e
    case KeyDown(Some(k)) =>
      (match k
       case Up => s.(up := true)
       case Down => s.(down := true)
       case Left => s.(left := true)
       case Right => s.(right := true)
       case Space => s.(space := true)
       case OtherKey(_) => s)
    case KeyUp(Some(k)) =>
      (match k
       case Up => s.(up := false)
       case Down => s.(down := false)
       case Left => s.(left := false)
       case Right => s.(right := false)
       case Space => s.(space := false)
       case OtherKey(_) => s)
    case _ => s
  }

  /** Handling the same event twice is the same as handling it once. */
  lemma HandleIdempotent(s: KeyState, e: Event)
    ensures HandleKeyEvent(HandleKeyEvent(s, e), e) == HandleKeyEvent(s, e)
  {
  }

  /** The flag an event writes and the value it writes, if any. */
  function Effect(e: Event): Option<(Keycode, bool)> {
    match e
    case KeyDown(Some(k)) => if Tracked(k) then Some((k, true)) else None
    case KeyUp(Some(k)) => if Tracked(k) then Some((k, false)) else None
    case _ => None
  }

  /** Handling an event is writing its effect. */
  lemma HandleWritesEffect(s: KeyState, e: Event)
    ensures Effect(e).None? ==> HandleKeyEvent(s, e) == s
    ensures Effect(e).Some? ==> HandleKeyEvent(s, e) == SetHeld(s, Effect(e).value.0, Effect(e).value.1)
  {
  }

  lemma SetHeldCommute(s: KeyState, k1: Keycode, v1: bool, k2: Keycode, v2: bool)
    requires Tracked(k1) && Tracked(k2) && k1 != k2
    ensures SetHeld(SetHeld(s, k1, v1), k2, v2) == SetHeld(SetHeld(s, k2, v2), k1, v1)
  {
    match k1
    case Up =>
    case Down =>
    case Left =>
    case Right =>
    case Space =>
  }

  /** Events for two different keys can be handled in either order. */
  lemma DifferentKeysCommute(s: KeyState, e1: Event, e2: Event)
    requires (e1.KeyDown? || e1.KeyUp?) && (e2.KeyDown? || e2.KeyUp?)
    requires e1.keycode != e2.keycode
    ensures HandleKeyEvent(HandleKeyEvent(s, e1), e2) == HandleKeyEvent(HandleKeyEvent(s, e2), e1)
  {
    HandleWritesEffect(s, e1);
    HandleWritesEffect(s, e2);
    HandleWritesEffect(HandleKeyEvent(s, e1), e2);
    HandleWritesEffect(HandleKeyEvent(s, e2), e1);
    if Effect(e1).Some? && Effect(e2).Some? {
      SetHeldCommute(s, Effect(e1).value.0, Effect(e1).value.1, Effect(e2).value.0, Effect(e2).value.1);
    }
  }

  /** The flag of a key reflects the last key-down or key-up event of that key, whatever came between. */
  lemma LastEventWins(s: KeyState, k: Keycode, e: Event, others: seq<Event>)
    requires Tracked(k) && (e == KeyDown(Some(k)) || e == KeyUp(Some(k)))
    requires forall i :: 0 <= i < |others| ==> others[i].OtherEvent? || others[i].keycode != Some(k)
    ensures Held(HandleAll(HandleKeyEvent(s, e), others), k) == e.KeyDown?
  {
    LastEventWinsFrom(HandleKeyEvent(s, e), k, e.KeyDown?, others);
  }

  lemma {:induction false} LastEventWinsFrom(s: KeyState, k: Keycode, v: bool, others: seq<Event>)
    requires Tracked(k) && Held(s, k) == v
    requires forall i :: 0 <= i < |others| ==> others[i].OtherEvent? || others[i].keycode != Some(k)
    ensures Held(HandleAll(s, others), k) == v
    decreases |others|
  {
    if |others| > 0 {
      LastEventWinsFrom(HandleKeyEvent(s, others[0]), k, v, others[1..]);
    }
  }

  /** A sequence of events handled in order. */
  function HandleAll(s: KeyState, events: seq<Event>): KeyState
    decreases |events|
  {
    if |events| == 0 then s else HandleAll(HandleKeyEvent(s, events[0]), events[1..])
  }
}
