/**
 * The gauge's saved instance state: a key/value bundle holding ten of the
 * gauge's fields under their field names. The bundle of the parent view,
 * stored under its own key, belongs to the platform and is not modelled.
 */
module InstanceState {

  /** A value stored in a bundle, tagged with the type it was stored as. */
  datatype BundleValue = FloatValue(f: real) | IntValue(i: int) | BoolValue(b: bool)

  type Bundle = map<string, BundleValue>

  /** `Bundle.getFloat`: the stored float, or 0 when the key is missing or
      holds another type. */
  function GetFloat(b: Bundle, key: string): real {
    if key in b && b[key].FloatValue? then b[key].f else 0.0
  }

  /** `Bundle.getInt`: the stored int, or 0. */
  function GetInt(b: Bundle, key: string): int {
    if key in b && b[key].IntValue? then b[key].i else 0
  }

  /** `Bundle.getBoolean`: the stored boolean, or false. */
  function GetBoolean(b: Bundle, key: string): bool {
    if key in b && b[key].BoolValue? then b[key].b else false
  }

  /** The fields that survive a save and restore. */
  datatype SavedFields = SavedFields(
    angleStart: real,
    angleSweep: real,
    angleDraw: real,
    strokeSize: real,
    strokeColor: int,
    progressSize: real,
    progressColor: int,
    notchsCount: int,
    notchsLength: real,
    snapToNotchs: bool)

  /** The keys the gauge writes; the notch size and colour are not among them. */
  const SavedKeys: set<string> := {
    "mAngleStart", "mAngleSweep", "mAngleDraw", "mStrokeSize", "mStrokeColor",
    "mProgressSize", "mProgressColor", "mNotchsCount", "mNotchsLength", "mSnapToNotchs"
  }

  /** `onSaveInstanceState`: every field under its own name, with its own type. */
  function Save(s: SavedFields): (b: Bundle)
    ensures b.Keys == SavedKeys
    ensures "mNotchsSize" !in b && "mNotchsColor" !in b
  {
    map[
      "mAngleStart" := FloatValue(s.angleStart),
      "mAngleSweep" := FloatValue(s.angleSweep),
      "mAngleDraw" := FloatValue(s.angleDraw),
      "mStrokeSize" := FloatValue(s.strokeSize),
      "mStrokeColor" := IntValue(s.strokeColor),
      "mProgressSize" := FloatValue(s.progressSize),
      "mProgressColor" := IntValue(s.progressColor),
      "mNotchsCount" := IntValue(s.notchsCount),
      "mNotchsLength" := FloatValue(s.notchsLength),
      "mSnapToNotchs" := BoolValue(s.snapToNotchs)
    ]
  }

  /** `onRestoreInstanceState`: reads the same ten keys back; a bundle holding
      none of them restores every field to the bundle defaults 0 and false. */
  function Restore(b: Bundle): (s: SavedFields)
    ensures b.Keys !! SavedKeys ==> s == SavedFields(0.0, 0.0, 0.0, 0.0, 0, 0.0, 0, 0, 0.0, false)
  {
    SavedFields(
      GetFloat(b, "mAngleStart"),
      GetFloat(b, "mAngleSweep"),
      GetFloat(b, "mAngleDraw"),
      GetFloat(b, "mStrokeSize"),
      GetInt(b, "mStrokeColor"),
      GetFloat(b, "mProgressSize"),
      GetInt(b, "mProgressColor"),
      GetInt(b, "mNotchsCount"),
      GetFloat(b, "mNotchsLength"),
      GetBoolean(b, "mSnapToNotchs"))
  }

  /** Restoring a saved bundle gives back every saved field: each key is read
      with the type it was written with, and no two fields share a key. */
  lemma RestoreSave(s: SavedFields)
    ensures Restore(Save(s)) == s
  {
  }

  /** A restore reads nothing but the ten saved keys. */
  lemma RestoreReadsSavedKeysOnly(b: Bundle)
    ensures Restore(b) == Restore(map k | k in b && k in SavedKeys :: b[k])
  {
  }
}
