/**
 * The sixteen continuous actions of the client (in_mlook ... in_down), each
 * with its own press/release record, seen as one table indexed by action.
 */
module KeyActions {
  import opened KButton

  /** The sixteen continuous actions, one kbutton_t each. */
  datatype ButtonId = MLook | KLook | Left | Right | Forward | Back | LookUp | LookDown
                    | MoveLeft | MoveRight | Strafe | Speed | Use | Attack | Up | Down

  /** The actions whose held time turns into view rotation or movement. */
  predicate IsMovement(id: ButtonId) {
    !(id.MLook? || id.KLook? || id.Strafe? || id.Speed? || id.Use? || id.Attack?)
  }

  /** The records of all sixteen actions. */
  datatype Buttons = Buttons(mlook: Button, klook: Button, left: Button, right: Button, forward: Button,
                             back: Button, lookUp: Button, lookDown: Button, moveLeft: Button,
                             moveRight: Button, strafe: Button, speed: Button, use: Button, attack: Button,
                             up: Button, down: Button)

  /** Every record idle, as at start-up. */
  const AllIdle: Buttons := Buttons(Idle, Idle, Idle, Idle, Idle, Idle, Idle, Idle, Idle, Idle, Idle, Idle,
                                    Idle, Idle, Idle, Idle)

  /** The record of action `id`. */
  function Get(bs: Buttons, id: ButtonId): Button {
    match id
    case MLook => bs.mlook
    case KLook => bs.klook
    case Left => bs.left
    case Right => bs.right
    case Forward => bs.forward
    case Back => bs.back
    case LookUp => bs.lookUp
    case LookDown => bs.lookDown
    case MoveLeft => bs.moveLeft
    case MoveRight => bs.moveRight
    case Strafe => bs.strafe
    case Speed => bs.speed
    case Use => bs.use
    case Attack => bs.attack
    case Up => bs.up
    case Down => bs.down
  }

  /** The records with the one of action `id` replaced by `b`; the other fifteen stay as they are. */
  function With(bs: Buttons, id: ButtonId, b: Button): (r: Buttons)
    ensures Get(r, id) == b
    ensures forall other :: other != id ==> Get(r, other) == Get(bs, other)
  {
    match id
    case MLook => bs.(mlook := b)
    case KLook => bs.(klook := b)
    case Left => bs.(left := b)
    case Right => bs.(right := b)
    case Forward => bs.(forward := b)
    case Back => bs.(back := b)
    case LookUp => bs.(lookUp := b)
    case LookDown => bs.(lookDown := b)
    case MoveLeft => bs.(moveLeft := b)
    case MoveRight => bs.(moveRight := b)
    case Strafe => bs.(strafe := b)
    case Speed => bs.(speed := b)
    case Use => bs.(use := b)
    case Attack => bs.(attack := b)
    case Up => bs.(up := b)
    case Down => bs.(down := b)
  }
}
