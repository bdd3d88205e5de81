/**
  Log-level filtering: a message is written when its level ranks at least
  as high as the manager's current level. The written lines are recorded
  in `written`; the logger's date stamp is not modelled.
*/
module Logging {
  /** The rank table of `shouldLog`; a name outside it ranks 0. */
  function Rank(level: string): (r: int)
    ensures 0 <= r <= 4
    ensures r == 0 <==> level !in {"DEBUG", "INFO", "WARN", "ERROR"}
  {
    if level == "DEBUG" then 1
    else if level == "INFO" then 2
    else if level == "WARN" then 3
    else if level == "ERROR" then 4
    else 0
  }

  /** `shouldLog`. */
  function ShouldLog(currentLevel: string, messageLevel: string): (b: bool)
    ensures currentLevel == messageLevel ==> b
    ensures messageLevel == "ERROR" ==> b
    ensures messageLevel == "DEBUG" ==> (b <==> Rank(currentLevel) <= 1)
  {
    Rank(messageLevel) >= Rank(currentLevel)
  }

  /** The known levels are totally ordered DEBUG < INFO < WARN < ERROR. */
  lemma LevelOrder()
    ensures Rank("DEBUG") < Rank("INFO") < Rank("WARN") < Rank("ERROR")
    ensures forall l :: ShouldLog(l, "ERROR")
  {
  }

  /** An unknown message level is suppressed under every known current
      level; an unknown current level lets every message through. */
  lemma UnknownLevels(current: string, message: string)
    ensures Rank(message) == 0 && Rank(current) > 0 ==> !ShouldLog(current, message)
    ensures Rank(current) == 0 ==> ShouldLog(current, message)
  {
  }

  /** At the initial level INFO, DEBUG is suppressed and INFO, WARN and
      ERROR are written. */
  lemma InitialLevelFilters()
    ensures !ShouldLog("INFO", "DEBUG")
    ensures ShouldLog("INFO", "INFO") && ShouldLog("INFO", "WARN") && ShouldLog("INFO", "ERROR")
  {
  }

  class LoggerManager {
    var logLevel: string
    var prefix: string
    var written: seq<string>

    /** `NewLoggerManager`: level INFO, prefix "[INFO] ". */
    constructor ()
      ensures logLevel == "INFO" && prefix == "[INFO] " && written == []
    {
      logLevel := "INFO";
      prefix := "[INFO] ";
      written := [];
    }

    /** `SetLogLevel`: later `Log` calls filter against `level`. */
    method SetLogLevel(level: string)
      modifies this`logLevel, this`prefix
      ensures logLevel == level && prefix == "[" + level + "] "
    {
      logLevel := level;
      prefix := "[" + level + "] ";
    }

    /** `Log`: write the message (after the current prefix) iff the filter
        lets its level through. */
    method Log(level: string, message: string)
      modifies this`written
      ensures ShouldLog(logLevel, level) ==> written == old(written) + [prefix + message]
      ensures !ShouldLog(logLevel, level) ==> written == old(written)
    {
      if ShouldLog(logLevel, level) {
        written := written + [prefix + message];
      }
    }
  }
}
