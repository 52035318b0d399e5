/** The standard levels of Python's `logging` module, by number and by name. */
module Levels {
  import opened Wrappers

  datatype Level = NotSet | Debug | Info | Warning | Error | Critical {

    /** The module constant, e.g. `logging.INFO == 20`. */
    function Number(): int {
      match this
      case NotSet => 0
      case Debug => 10
      case Info => 20
      case Warning => 30
      case Error => 40
      case Critical => 50
    }

    /** `logging.getLevelName(self.Number())`: the name a record at this level carries. */
    function Name(): string {
      match this
      case NotSet => "NOTSET"
      case Debug => "DEBUG"
      case Info => "INFO"
      case Warning => "WARNING"
      case Error => "ERROR"
      case Critical => "CRITICAL"
    }
  }

  /** `getattr(logging, name)` where that attribute is a level number; absent where
      the lookup raises (or yields something that is not a number). `WARN` and
      `FATAL` are the module's aliases of `WARNING` and `CRITICAL`. Module attributes
      that are not level constants are treated as unknown names. */
  function LevelNumber(name: string): (r: Option<int>)
    ensures r.Some? <==> (exists l: Level :: l.Name() == name) || name == "WARN" || name == "FATAL"
    ensures r.Some? ==> exists l: Level :: l.Number() == r.value
    ensures forall l: Level :: name == l.Name() ==> r == Some(l.Number())
    ensures name == "WARN" ==> r == Some(Warning.Number())
    ensures name == "FATAL" ==> r == Some(Critical.Number())
  {
    match name
    case "NOTSET" => assert NotSet.Name() == name; Some(NotSet.Number())
    case "DEBUG" => assert Debug.Name() == name; Some(Debug.Number())
    case "INFO" => assert Info.Name() == name; Some(Info.Number())
    case "WARNING" => assert Warning.Name() == name; Some(Warning.Number())
    case "WARN" => Some(Warning.Number())
    case "ERROR" => assert Error.Name() == name; Some(Error.Number())
    case "CRITICAL" => assert Critical.Name() == name; Some(Critical.Number())
    case "FATAL" => Some(Critical.Number())
    case _ => None
  }

  /** The root logger's level, set once at import time. */
  const Threshold: int := Info.Number()

  /** Looking a level's name up in the module gives back its number, and no two
      levels share a name. */
  lemma NameNumberRoundTrip(l: Level, m: Level)
    ensures LevelNumber(l.Name()) == Some(l.Number())
    ensures l.Name() == m.Name() ==> l == m
  {
    match l
    case NotSet =>
    case Debug =>
    case Info =>
    case Warning =>
    case Error =>
    case Critical =>
  }
}
