/** The shared types of types.ts: the cat's actions and a 2-D point. */
module KittyTypes {

  /** `CatAction`: what the cat is currently doing. */
  datatype CatAction = Idle | Spin | Jump | Lay | Sneeze | Shake

  /** The string value of each `CatAction` member. */
  function ActionName(a: CatAction): (name: string)
    ensures |name| >= 3
  {
    match a
    case Idle => "IDLE"
    case Spin => "SPIN"
    case Jump => "JUMP"
    case Lay => "LAY"
    case Sneeze => "SNEEZE"
    case Shake => "SHAKE"
  }

  /** `Point`, in the normalised coordinates of the camera image (0 to 1 on
      each axis for a point inside the frame). Numbers are idealised as reals. */
  datatype Point = Point(x: real, y: real)

  /** Different actions have different names, so a name identifies its action. */
  lemma ActionNameInjective(a: CatAction, b: CatAction)
    ensures ActionName(a) == ActionName(b) <==> a == b
  {
  }
}
