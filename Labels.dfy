/**
 * The fixed label table and the renaming of a label's element id to its key
 * in the external configuration file.
 */
module Labels {
  import opened Wrappers
  import opened Grid

  /** The labels on the page, one per entry of the `defaultPositions` table. */
  datatype LabelId =
    | X | Y | Z | Pitch | Yaw | Ja | Ha | SecondTurn | Preturn | LastTurning | LandX | LandY
    | LandZ | HitX | HitY | HitZ | JumpX | JumpZ | SpeedX | SpeedY | SpeedZ | SpeedVector
    | Tier | Airtime | Grind | MmX | MmZ | Offset | OffsetX | OffsetZ | Pb | PbX | PbZ
    | LastInput | LastSidestep | LastTiming | Time

  /** The label's element id. */
  function Name(l: LabelId): string {
    match l
    case X => "x"
    case Y => "y"
    case Z => "z"
    case Pitch => "pitch"
    case Yaw => "yaw"
    case Ja => "ja"
    case Ha => "ha"
    case SecondTurn => "secondTurn"
    case Preturn => "preturn"
    case LastTurning => "lastTurning"
    case LandX => "landx"
    case LandY => "landy"
    case LandZ => "landz"
    case HitX => "hitx"
    case HitY => "hity"
    case HitZ => "hitz"
    case JumpX => "jumpx"
    case JumpZ => "jumpz"
    case SpeedX => "speedx"
    case SpeedY => "speedy"
    case SpeedZ => "speedz"
    case SpeedVector => "speedVector"
    case Tier => "tier"
    case Airtime => "airtime"
    case Grind => "grind"
    case MmX => "mmx"
    case MmZ => "mmz"
    case Offset => "offset"
    case OffsetX => "offsetx"
    case OffsetZ => "offsetz"
    case Pb => "pb"
    case PbX => "pbx"
    case PbZ => "pbz"
    case LastInput => "lastInput"
    case LastSidestep => "lastSidestep"
    case LastTiming => "lastTiming"
    case Time => "time"
  }

  /** The label's built-in grid position (`defaultPositions`), always a cell of the grid. */
  function Default(l: LabelId): (p: Point)
    ensures 0 <= p.x < GRID_WIDTH && 0 <= p.y < GRID_HEIGHT
  {
    match l
    case X => Point(1, 0)
    case Y => Point(1, 9)
    case Z => Point(1, 18)
    case Pitch => Point(1, 27)
    case Yaw => Point(310, 180)
    case Ja => Point(270, 189)
    case Ha => Point(269, 198)
    case SecondTurn => Point(248, 207)
    case Preturn => Point(248, 216)
    case LastTurning => Point(1, 36)
    case LandX => Point(1, 150)
    case LandY => Point(1, 159)
    case LandZ => Point(1, 168)
    case HitX => Point(1, 177)
    case HitY => Point(1, 186)
    case HitZ => Point(1, 195)
    case JumpX => Point(1, 204)
    case JumpZ => Point(1, 222)
    case SpeedX => Point(1, 231)
    case SpeedY => Point(1, 240)
    case SpeedZ => Point(1, 249)
    case SpeedVector => Point(1, 258)
    case Tier => Point(1, 267)
    case Airtime => Point(1, 276)
    case Grind => Point(1, 284)
    case MmX => Point(1, 293)
    case MmZ => Point(1, 302)
    case Offset => Point(1, 45)
    case OffsetX => Point(1, 54)
    case OffsetZ => Point(1, 63)
    case Pb => Point(1, 72)
    case PbX => Point(1, 81)
    case PbZ => Point(1, 90)
    case LastInput => Point(1, 99)
    case LastSidestep => Point(1, 108)
    case LastTiming => Point(1, 117)
    case Time => Point(1, 126)
  }

  /** The label whose element id is s, if any. */
  function Parse(s: string): Option<LabelId> {
    match s
    case "x" => Some(X)
    case "y" => Some(Y)
    case "z" => Some(Z)
    case "pitch" => Some(Pitch)
    case "yaw" => Some(Yaw)
    case "ja" => Some(Ja)
    case "ha" => Some(Ha)
    case "secondTurn" => Some(SecondTurn)
    case "preturn" => Some(Preturn)
    case "lastTurning" => Some(LastTurning)
    case "landx" => Some(LandX)
    case "landy" => Some(LandY)
    case "landz" => Some(LandZ)
    case "hitx" => Some(HitX)
    case "hity" => Some(HitY)
    case "hitz" => Some(HitZ)
    case "jumpx" => Some(JumpX)
    case "jumpz" => Some(JumpZ)
    case "speedx" => Some(SpeedX)
    case "speedy" => Some(SpeedY)
    case "speedz" => Some(SpeedZ)
    case "speedVector" => Some(SpeedVector)
    case "tier" => Some(Tier)
    case "airtime" => Some(Airtime)
    case "grind" => Some(Grind)
    case "mmx" => Some(MmX)
    case "mmz" => Some(MmZ)
    case "offset" => Some(Offset)
    case "offsetx" => Some(OffsetX)
    case "offsetz" => Some(OffsetZ)
    case "pb" => Some(Pb)
    case "pbx" => Some(PbX)
    case "pbz" => Some(PbZ)
    case "lastInput" => Some(LastInput)
    case "lastSidestep" => Some(LastSidestep)
    case "lastTiming" => Some(LastTiming)
    case "time" => Some(Time)
    case _ => None
  }

  /** Every label, in the order of the `defaultPositions` table. */
  const TABLE_ORDER: seq<LabelId> := [
    X, Y, Z, Pitch, Yaw, Ja, Ha, SecondTurn, Preturn, LastTurning, LandX, LandY, LandZ,
    HitX, HitY, HitZ, JumpX, JumpZ, SpeedX, SpeedY, SpeedZ, SpeedVector, Tier, Airtime,
    Grind, MmX, MmZ, Offset, OffsetX, OffsetZ, Pb, PbX, PbZ, LastInput, LastSidestep,
    LastTiming, Time
  ]

  /** The configuration key that carries the shadow checkbox. */
  const SHADOW_KEY: string := "$showShadow"

  /** The only file name an import accepts, and the name an export is saved under. */
  const REQUIRED_FILE_NAME: string := "_global_variables.json"

  const OFFSET_SUFFIX: string := "_offset"

  /** The external key of an element id: `$<id>_offset`, except `yaw`, whose key is `$facing_offset`. */
  function KeyOf(id: string): (key: string)
    ensures |key| >= 8 && key[0] == '$' && key[|key| - 7..] == OFFSET_SUFFIX
  {
    if id == "yaw" then "$facing_offset" else "$" + id + OFFSET_SUFFIX
  }

  /** The inverse renaming: which element id an external key stands for, if any. */
  function LabelOfKey(key: string): Option<string> {
    if key == "$facing_offset" then Some("yaw")
    else if |key| >= 8 && key[0] == '$' && key[|key| - 7..] == OFFSET_SUFFIX then Some(key[1..|key| - 7])
    else None
  }

  /** Renaming can be undone for every id but `facing`, whose key is taken by `yaw`. */
  lemma KeyOfInvertible(id: string)
    requires id != "facing"
    ensures LabelOfKey(KeyOf(id)) == Some(id)
  {
    if id != "yaw" {
      var key := "$" + id + OFFSET_SUFFIX;
      assert key[1..|key| - 7] == id;
      assert "$facing_offset"[1..7] == "facing";
    }
  }

  /** Two ids share a key only when they are `yaw` and `facing`. */
  lemma KeyOfInjective(a: string, b: string)
    requires KeyOf(a) == KeyOf(b)
    ensures a == b || {a, b} == {"yaw", "facing"}
  {
    if a != "facing" && b != "facing" {
      KeyOfInvertible(a);
      KeyOfInvertible(b);
    } else if a == "facing" && b != "facing" {
      KeyOfInvertible(b);
      assert LabelOfKey(KeyOf(a)) == Some("yaw");
    } else if b == "facing" && a != "facing" {
      KeyOfInvertible(a);
      assert LabelOfKey(KeyOf(b)) == Some("yaw");
    }
  }

  /**
   * A label's external key, as placement and export both compute it. The
   * renaming of `KeyOf`, written on the label rather than on its id so that
   * the `yaw` case is a test of the label and not a comparison of strings;
   * `KeyRenamesName` proves the two agree.
   */
  function Key(l: LabelId): string {
    if l == Yaw then "$facing_offset" else "$" + Name(l) + OFFSET_SUFFIX
  }

  /** Keying a label is renaming its element id. */
  lemma KeyRenamesName(l: LabelId)
    ensures Key(l) == KeyOf(Name(l))
  {
    if l != Yaw {
      assert Name(l) != "yaw";
    }
  }

  /**
   * Element ids identify labels. The proof goes through six lemmas on groups
   * of labels only to keep each proof obligation small.
   */
  lemma ParseName(l: LabelId)
    ensures Parse(Name(l)) == Some(l)
  {
    if l.X? || l.Y? || l.Z? || l.Pitch? || l.Yaw? || l.Ja? || l.Ha? || l.SecondTurn? || l.Preturn? || l.LastTurning? || l.LandX? || l.LandY? {
      ParseNameOf1(l);
    } else if l.LandZ? || l.HitX? || l.HitY? || l.HitZ? || l.JumpX? || l.JumpZ? || l.SpeedX? || l.SpeedY? || l.SpeedZ? {
      ParseNameOf2(l);
    } else if l.SpeedVector? || l.Tier? || l.Airtime? || l.Grind? || l.MmX? || l.MmZ? {
      ParseNameOf3(l);
    } else if l.Offset? || l.OffsetX? || l.OffsetZ? || l.Pb? {
      ParseNameOf4(l);
    } else if l.PbX? || l.PbZ? || l.LastInput? {
      ParseNameOf5(l);
    } else {
      ParseNameOf6(l);
    }
  }

  lemma ParseNameOf1(l: LabelId)
    requires l.X? || l.Y? || l.Z? || l.Pitch? || l.Yaw? || l.Ja? || l.Ha? || l.SecondTurn? || l.Preturn? || l.LastTurning? || l.LandX? || l.LandY?
    ensures Parse(Name(l)) == Some(l)
  {
  }

  lemma ParseNameOf2(l: LabelId)
    requires l.LandZ? || l.HitX? || l.HitY? || l.HitZ? || l.JumpX? || l.JumpZ? || l.SpeedX? || l.SpeedY? || l.SpeedZ?
    ensures Parse(Name(l)) == Some(l)
  {
  }

  lemma ParseNameOf3(l: LabelId)
    requires l.SpeedVector? || l.Tier? || l.Airtime? || l.Grind? || l.MmX? || l.MmZ?
    ensures Parse(Name(l)) == Some(l)
  {
  }

  lemma ParseNameOf4(l: LabelId)
    requires l.Offset? || l.OffsetX? || l.OffsetZ? || l.Pb?
    ensures Parse(Name(l)) == Some(l)
  {
  }

  lemma ParseNameOf5(l: LabelId)
    requires l.PbX? || l.PbZ? || l.LastInput?
    ensures Parse(Name(l)) == Some(l)
  {
  }

  lemma ParseNameOf6(l: LabelId)
    requires l.LastSidestep? || l.LastTiming? || l.Time?
    ensures Parse(Name(l)) == Some(l)
  {
  }

  /** Different labels have different element ids. */
  lemma NameInjective(a: LabelId, b: LabelId)
    requires Name(a) == Name(b)
    ensures a == b
  {
    ParseName(a);
    ParseName(b);
  }

  /** No element id is `facing` or starts with `$`. */
  lemma NameShape(l: LabelId)
    ensures Name(l) != "facing"
    ensures |Name(l)| > 0 && Name(l)[0] != '$'
  {
  }

  /** Ids other than `facing` that share a key are equal: `KeyOfInjective` without its one exception. */
  lemma KeyOfDistinct(a: string, b: string)
    requires a != "facing" && b != "facing"
    requires KeyOf(a) == KeyOf(b)
    ensures a == b
  {
    KeyOfInjective(a, b);
  }

  /** Different labels have different keys. */
  lemma KeysDistinct(a: LabelId, b: LabelId)
    requires Key(a) == Key(b)
    ensures a == b
  {
    var na, nb := Name(a), Name(b);
    NameShape(a);
    NameShape(b);
    KeyRenamesName(a);
    KeyRenamesName(b);
    KeyOfDistinct(na, nb);
    NameInjective(a, b);
  }

  /** The shadow flag's key is never a label's key. */
  lemma ShadowKeyIsNoLabelKey(id: string)
    ensures KeyOf(id) != SHADOW_KEY
  {
    var key := KeyOf(id);
    assert key[|key| - 1] == 't';
    assert SHADOW_KEY[|SHADOW_KEY| - 1] == 'w';
  }
}
