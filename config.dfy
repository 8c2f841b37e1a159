/** The configuration read once from the environment when the script loads
    (scripts/impersonate.js, lines 32-43). */
module Configuration {
  import opened Types

  /** HUBOT_IMPERSONATE_MODE. */
  datatype Mode = TrainOnly | TrainAndRespond | RespondOnly

  /** The environment value that selects each mode. */
  function ModeName(m: Mode): string
  {
    match m
    case TrainOnly => "train"
    case TrainAndRespond => "train_respond"
    case RespondOnly => "respond"
  }

  const ModeNames: seq<string> := ["train", "train_respond", "respond"]

  /** A mode is chosen only by one of the three accepted names; an unset or
      unknown value falls back to `train`. */
  function ParseMode(v: Option<string>): (m: Mode)
    ensures v.Some? && v.value in ModeNames ==> ModeName(m) == v.value
    ensures !(v.Some? && v.value in ModeNames) ==> m == TrainOnly
    ensures ModeName(m) in ModeNames
  {
    if v == Some("train_respond") then TrainAndRespond
    else if v == Some("respond") then RespondOnly
    else TrainOnly
  }

  lemma ParseModeName(m: Mode)
    ensures ParseMode(Some(ModeName(m))) == m
  {
  }

  /** `shouldTrain`: the mode's name is `train` or `train_respond`. */
  function ShouldTrain(m: Mode): (b: bool)
    ensures b <==> ModeName(m) in ["train", "train_respond"]
  {
    m != RespondOnly
  }

  /** `shouldRespondMode`: the mode's name is `respond` or `train_respond`. */
  function ShouldRespondMode(m: Mode): (b: bool)
    ensures b <==> ModeName(m) in ["respond", "train_respond"]
  {
    m != TrainOnly
  }

  /** Every mode does something, and only `train_respond` does both. */
  lemma ModesCover(m: Mode)
    ensures ShouldTrain(m) || ShouldRespondMode(m)
    ensures ShouldTrain(m) && ShouldRespondMode(m) <==> m == TrainAndRespond
  {
  }

  /** A boolean option: an unset or empty variable is false (JavaScript
      truthiness), and so is the literal `false`; anything else is true. */
  function Flag(v: Option<string>): (b: bool)
    ensures !b <==> v == None || v == Some("") || v == Some("false")
  {
    match v
    case None => false
    case Some(s) => !(s == "" || s == "false")
  }

  /** The raw environment. A numeric variable is `None` when it is unset or
      empty, and otherwise the integer `parseInt` produced from it. */
  datatype Environment = Environment(
    mode: Option<string>,
    minWords: Option<int>,
    initTimeout: Option<int>,
    caseSensitive: Option<string>,
    stripPunctuation: Option<string>,
    responseDelayPerWord: Option<int>,
    frequencyThreshold: Option<int>)

  datatype Config = Config(
    minWords: int,
    mode: Mode,
    initTimeout: int,
    caseSensitive: bool,
    stripPunctuation: bool,
    responseDelayPerWord: int,
    frequencyThreshold: int)

  /** `v ? parseInt(v) : def`. */
  function Numeric(v: Option<int>, def: int): int
  {
    if v.Some? then v.value else def
  }

  /** RESPONSE_DELAY_PER_WORD as line 37 computes it: from the variable
      HUBOT_IMPERSONATE_INIT_TIMEOUT, not from its own variable. */
  function ResponseDelayAsWritten(env: Environment): int
  {
    Numeric(env.initTimeout, 600)
  }

  /** Setting HUBOT_IMPERSONATE_RESPONSE_DELAY_PER_WORD has no effect on any
      environment, and setting the start-up timeout changes the reply delay. */
  lemma ResponseDelayReadsInitTimeout(env: Environment, x: Option<int>)
    ensures ResponseDelayAsWritten(env.(responseDelayPerWord := x)) == ResponseDelayAsWritten(env)
    ensures ResponseDelayAsWritten(Environment(None, None, None, None, None, Some(200), None)) == 600
    ensures ResponseDelayAsWritten(Environment(None, None, Some(10000), None, None, None, None)) == 10000
  {
  }

  /** RESPONSE_DELAY_PER_WORD as documented in the script's header: its own
      variable, default 600 milliseconds, independent of the start-up timeout. */
  function ResponseDelay(env: Environment): (n: int)
    ensures env.responseDelayPerWord.Some? ==> n == env.responseDelayPerWord.value
    ensures env.responseDelayPerWord.None? ==> n == 600
  {
    Numeric(env.responseDelayPerWord, 600)
  }

  /** The corrected delay does not depend on the start-up timeout. */
  lemma ResponseDelayIgnoresInitTimeout(env: Environment, t: Option<int>)
    ensures ResponseDelay(env.(initTimeout := t)) == ResponseDelay(env)
  {
  }

  /** Each option falls back to its documented default on its own. */
  function FromEnvironment(env: Environment): (c: Config)
    ensures ModeName(c.mode) in ModeNames
    ensures env.mode.Some? && env.mode.value in ModeNames ==> ModeName(c.mode) == env.mode.value
    ensures !(env.mode.Some? && env.mode.value in ModeNames) ==> c.mode == TrainOnly
    ensures c.minWords == (if env.minWords.Some? then env.minWords.value else 1)
    ensures c.initTimeout == (if env.initTimeout.Some? then env.initTimeout.value else 10000)
    ensures c.frequencyThreshold == (if env.frequencyThreshold.Some? then env.frequencyThreshold.value else 50)
    ensures c.responseDelayPerWord == (if env.responseDelayPerWord.Some? then env.responseDelayPerWord.value else 600)
    ensures !c.caseSensitive <==> env.caseSensitive == None || env.caseSensitive == Some("") || env.caseSensitive == Some("false")
    ensures !c.stripPunctuation <==> env.stripPunctuation == None || env.stripPunctuation == Some("") || env.stripPunctuation == Some("false")
  {
    Config(
      Numeric(env.minWords, 1),
      ParseMode(env.mode),
      Numeric(env.initTimeout, 10000),
      Flag(env.caseSensitive),
      Flag(env.stripPunctuation),
      ResponseDelay(env),
      Numeric(env.frequencyThreshold, 50))
  }
}
