/**
  Values of the particle engine: entities, rules and the settings document
  exchanged with the page, together with the two relations that specify the
  engine's bookkeeping (what `initialize` builds from a settings value and
  what `getSettings` reads back) and the lemmas that connect them.
 */
module Model {

  datatype Option<T> = None | Some(value: T)

  /** An integer pair: the canvas size. */
  datatype Vec2i = Vec2i(x: int, y: int)

  /** A float64 pair. Only positions that are whole numbers and the zero
      speed occur in this model, so `real` represents them exactly. */
  datatype Vec2f = Vec2f(x: real, y: real)

  datatype Entity = Entity(pos: Vec2f, newPos: Vec2f, speed: Vec2f)

  /** A directed rule from the population `color1` to `color2`. The force and
      the effect range are only copied by the bookkeeping, never computed. */
  datatype Rule = Rule(color1: string, color2: string, force: real, effectRange: real)

  /** The settings document: a population count per colour and a rule list. */
  datatype Settings = Settings(colors: map<string, nat>, rules: seq<Rule>)

  /** The engine's entity table: the entities of each colour, in order. */
  type Population = map<string, seq<Entity>>

  /** An argument handed to an entry point by the page. */
  datatype JsArg = Missing | NonString | Str(text: string)

  /** `v` is a whole number in [0, n). */
  predicate IsCell(v: real, n: int)
  {
    v == v.Floor as real && 0 <= v.Floor < n
  }

  /** A freshly spawned entity: a whole-numbered position inside the canvas,
      the pending position equal to it, and no speed. */
  predicate Spawned(e: Entity, size: Vec2i)
  {
    IsCell(e.pos.x, size.x) && IsCell(e.pos.y, size.y)
    && e.newPos == e.pos && e.speed == Vec2f(0.0, 0.0)
  }

  predicate AllSpawned(entities: Population, size: Vec2i)
  {
    forall c :: c in entities ==> forall k :: 0 <= k < |entities[c]| ==> Spawned(entities[c][k], size)
  }

  /** Every colour present in the table has at least one entity. */
  predicate NoEmptyLists(entities: Population)
  {
    forall c :: c in entities ==> |entities[c]| > 0
  }

  /** The list of a colour, or the empty list the engine creates for a
      colour it has not seen. */
  function ListOf(entities: Population, c: string): (list: seq<Entity>)
  {
    if c in entities then entities[c] else []
  }

  /** The counts of a settings value with the zero counts dropped. */
  function PositiveCounts(colors: map<string, nat>): (positive: map<string, nat>)
  {
    map c | c in colors && colors[c] > 0 :: colors[c]
  }

  /** What `getSettings` promises: one count per key of the table, equal to
      the length of that key's list, and the rules copied in order. */
  ghost predicate Describes(s: Settings, entities: Population, rules: seq<Rule>)
  {
    s.colors.Keys == entities.Keys
    && (forall c :: c in entities ==> s.colors[c] == |entities[c]|)
    && s.rules == rules
  }

  /** What `initialize` promises: exactly the colours with a positive count
      are keys, each with that many entities, and the rules are the given
      ones in the given order. */
  ghost predicate Realizes(entities: Population, rules: seq<Rule>, s: Settings)
  {
    (forall c :: c in entities <==> c in s.colors && s.colors[c] > 0)
    && (forall c :: c in entities ==> |entities[c]| == s.colors[c])
    && rules == s.rules
  }

  /** The settings `startApp` falls back to: 20 red and 20 blue entities and
      four rules whose ranges are a fifth and an eighth of the canvas width,
      computed with Go's integer division (the width is positive, so
      truncation and Dafny's division agree). */
  function DefaultSettings(size: Vec2i): (defaults: Settings)
  {
    Settings(
      map["red" := 20, "blue" := 20],
      [ Rule("blue", "blue", -0.1, (size.x / 5) as real),
        Rule("red", "red", 0.8, (size.x / 8) as real),
        Rule("red", "blue", 0.5, (size.x / 5) as real),
        Rule("blue", "red", -0.8, (size.x / 8) as real) ])
  }

  /** A table is described by exactly one settings value, so two reads of
      an unchanged engine give equal results. */
  lemma DescribesUnique(g1: Settings, g2: Settings, entities: Population, rules: seq<Rule>)
    requires Describes(g1, entities, rules) && Describes(g2, entities, rules)
    ensures g1 == g2
  {
  }

  /** Round trip: reading back right after initialising with `s` gives the
      rules of `s` unchanged and the counts of `s` without its zero counts. */
  lemma RoundTrip(entities: Population, rules: seq<Rule>, s: Settings, g: Settings)
    requires Realizes(entities, rules, s) && Describes(g, entities, rules)
    ensures g == Settings(PositiveCounts(s.colors), s.rules)
  {
  }

  /** A colour initialised with count 0 never gets a key, so it is absent
      from what is read back. */
  lemma ZeroCountAbsent(entities: Population, rules: seq<Rule>, s: Settings, g: Settings, c: string)
    requires Realizes(entities, rules, s) && Describes(g, entities, rules)
    requires c in s.colors && s.colors[c] == 0
    ensures c !in entities && c !in g.colors
  {
  }

  /** Initialising never leaves a colour with an empty list. */
  lemma RealizesNoEmptyLists(entities: Population, rules: seq<Rule>, s: Settings)
    requires Realizes(entities, rules, s)
    ensures NoEmptyLists(entities)
  {
  }

  /** What is read back from a table without empty lists has no zero counts. */
  lemma DescribedCountsPositive(g: Settings, entities: Population, rules: seq<Rule>)
    requires NoEmptyLists(entities) && Describes(g, entities, rules)
    ensures PositiveCounts(g.colors) == g.colors
  {
  }

  /** Saving the settings read back and loading them again reproduces them:
      read, initialise with what was read, read again gives the same value. */
  lemma ReloadIsStable(e1: Population, r1: seq<Rule>, g1: Settings,
                       e2: Population, r2: seq<Rule>, g2: Settings)
    requires NoEmptyLists(e1) && Describes(g1, e1, r1)
    requires Realizes(e2, r2, g1) && Describes(g2, e2, r2)
    ensures g2 == g1
  {
    DescribedCountsPositive(g1, e1, r1);
    RoundTrip(e2, r2, g1, g2);
  }

  /** Initialising with the defaults and reading back gives the defaults. */
  lemma DefaultsRoundTrip(size: Vec2i, entities: Population, rules: seq<Rule>, g: Settings)
    requires Realizes(entities, rules, DefaultSettings(size)) && Describes(g, entities, rules)
    ensures g == DefaultSettings(size)
  {
    RoundTrip(entities, rules, DefaultSettings(size), g);
  }
}
