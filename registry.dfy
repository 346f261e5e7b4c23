/**
 * The tool classes with their `name` attributes, and the list `getAllTools()` returns,
 * from which the game builds its name -> tool registry.
 */
module Registry {
  import opened Events

  /** The tool classes defined, each with its class attribute `name`. */
  datatype ToolClass =
    | MagicPenClass | CircleClass | TriangleClass | BoxClass | PolygonClass
    | GrabClass | MotorClass | PinClass | JointClass | DestroyClass | RollClass
  {
    /** The `name` attribute, which is also the action that selects the tool: never a reserved action. */
    function Name(): (n: string)
      ensures |n| > 0 && n != ToggleAction && n != FocusInAction && n != FocusOutAction
    {
      match this
      case MagicPenClass => "Magicpen"
      case CircleClass => "Circle"
      case TriangleClass => "Triangle"
      case BoxClass => "Box"
      case PolygonClass => "Polygon"
      case GrabClass => "Grab"
      case MotorClass => "Motor"
      case PinClass => "Pin"
      case JointClass => "Joint"
      case DestroyClass => "Destroy"
      case RollClass => "Roll"
    }
  }

  /** `getAllTools()`: every class but the roll tool, magic pen first. */
  function AllTools(): (r: seq<ToolClass>)
    ensures |r| == 10 && r[0] == MagicPenClass
  {
    [MagicPenClass, CircleClass, TriangleClass, BoxClass, PolygonClass,
     GrabClass, MotorClass, PinClass, JointClass, DestroyClass]
  }

  /** Every class is registered except the roll tool. */
  lemma RegisteredIffNotRoll(c: ToolClass)
    ensures c in AllTools() <==> c != RollClass
  {
    var all := AllTools();
    match c
    case MagicPenClass => assert all[0] == c;
    case CircleClass => assert all[1] == c;
    case TriangleClass => assert all[2] == c;
    case BoxClass => assert all[3] == c;
    case PolygonClass => assert all[4] == c;
    case GrabClass => assert all[5] == c;
    case MotorClass => assert all[6] == c;
    case PinClass => assert all[7] == c;
    case JointClass => assert all[8] == c;
    case DestroyClass => assert all[9] == c;
    case RollClass =>
  }

  /** Distinct classes have distinct names, so the registry keeps one entry per class. */
  lemma NamesDistinct(c: ToolClass, d: ToolClass)
    ensures c.Name() == d.Name() ==> c == d
  {
    if c != d {
      assert c.Name() != d.Name() by {
        match c
        case MagicPenClass => assert c.Name()[0] == 'M' && c.Name()[1] == 'a';
        case CircleClass => assert c.Name() == "Circle";
        case TriangleClass => assert c.Name() == "Triangle";
        case BoxClass => assert c.Name() == "Box";
        case PolygonClass => assert c.Name()[1] == 'o' && |c.Name()| == 7;
        case GrabClass => assert c.Name() == "Grab";
        case MotorClass => assert c.Name()[0] == 'M' && c.Name()[1] == 'o';
        case PinClass => assert c.Name()[0] == 'P' && c.Name()[1] == 'i';
        case JointClass => assert c.Name() == "Joint";
        case DestroyClass => assert c.Name() == "Destroy";
        case RollClass => assert c.Name() == "Roll";
      }
    }
  }

  /** The registered classes have pairwise distinct names: `toolList` has one key per class. */
  lemma AllNamesDistinct()
    ensures forall c, d :: c in AllTools() && d in AllTools() && c.Name() == d.Name() ==> c == d
  {
    forall c, d | c in AllTools() && d in AllTools() && c.Name() == d.Name() ensures c == d {
      NamesDistinct(c, d);
    }
  }

  /** `"Roll"` names a tool class, but no instance is registered under it. */
  lemma RollNotRegistered(c: ToolClass)
    requires c.Name() == "Roll"
    ensures c !in AllTools()
  {
    NamesDistinct(c, RollClass);
    RegisteredIffNotRoll(c);
  }
}
