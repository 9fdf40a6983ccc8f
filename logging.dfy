/** The level a log call is written at. */
module Logging {

  datatype Level = Debug | Info | Warning | Error

  /** One line handed to the logger. */
  datatype Entry = Entry(level: Level, message: string)

  /**
   * Both debug services pick the logger level from the `level` query
   * parameter: the three names they recognise select that level and every
   * other string falls back to debug.
   */
  function LevelFor(level: string): (l: Level)
    ensures level == "info" <==> l == Info
    ensures level == "warning" <==> l == Warning
    ensures level == "error" <==> l == Error
    ensures l == Debug <==> level !in {"info", "warning", "error"}
  {
    if level == "info" then Info
    else if level == "warning" then Warning
    else if level == "error" then Error
    else Debug
  }
}
