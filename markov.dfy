/** The per-user Markov chain. Its algorithm belongs to the markov-respond
    library, which is not part of this model: a chain is identified with the
    settings it was built with and the texts it has learnt, in order, which is
    all the script can observe of it. Which of those texts the library
    actually counts (it skips texts shorter than `minWords`) is its own
    business. */
module Markov {
  import opened Types

  /** The constructor arguments `new Markov(MIN_WORDS, CASE_SENSITIVE,
      STRIP_PUNCTUATION)`. */
  datatype Settings = Settings(minWords: int, caseSensitive: bool, stripPunctuation: bool)

  /** What `export` yields and `import` accepts. */
  datatype Snapshot = Snapshot(learnt: seq<Text>)

  datatype Chain = Chain(settings: Settings, learnt: seq<Text>)

  /** A chain that has learnt nothing. */
  function New(s: Settings): Chain
  {
    Chain(s, [])
  }

  /** `m.train(text)`. */
  function Train(c: Chain, text: Text): Chain
  {
    c.(learnt := c.learnt + [text])
  }

  /** `m.export()`. */
  function Export(c: Chain): Snapshot
  {
    Snapshot(c.learnt)
  }

  /** `new Markov(...)` followed by `m.import(data)`. */
  function Imported(s: Settings, data: Snapshot): Chain
  {
    Chain(s, data.learnt)
  }

  /** Importing what a chain exported rebuilds that chain. */
  lemma ImportExport(c: Chain)
    ensures Imported(c.settings, Export(c)) == c
  {
  }

  /** Importing the empty object `{}` gives a chain that has learnt nothing. */
  lemma ImportEmpty(s: Settings)
    ensures Imported(s, Snapshot([])) == New(s)
  {
  }

  /** Training never forgets: what was exported before is a prefix of what
      is exported after. */
  lemma TrainOnlyAdds(c: Chain, text: Text)
    ensures Export(c).learnt <= Export(Train(c, text)).learnt
    ensures Train(c, text).settings == c.settings
  {
  }
}
