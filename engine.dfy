/**
  The simulation engine's state and the operations that maintain it: the
  entity table and the rule list of `App`, updated in place.
 */
module Engine {
  import opened Model

  class App {
    const size: Vec2i
    var entities: Population
    var rules: seq<Rule>

    /** The canvas has a positive size (random positions are drawn in it)
        and every colour in the table has at least one entity. */
    ghost predicate Valid()
      reads this
    {
      size.x > 0 && size.y > 0 && NoEmptyLists(entities)
    }

    /** A new engine over a canvas of the given size, with no entities and
        no rules. */
    constructor (size: Vec2i)
      requires size.x > 0 && size.y > 0
      ensures Valid() && this.size == size
      ensures entities == map[] && rules == []
    {
      this.size := size;
      entities := map[];
      rules := [];
    }

    /** Appends one freshly spawned entity to the list of `color`, creating
        the list when the colour is new. */
    method AddEntity(color: string)
      requires Valid()
      modifies this
      ensures Valid()
      ensures entities.Keys == old(entities).Keys + {color}
      ensures forall c :: c in old(entities) && c != color ==> entities[c] == old(entities)[c]
      ensures |entities[color]| == |ListOf(old(entities), color)| + 1
      ensures entities[color][..|entities[color]| - 1] == ListOf(old(entities), color)
      ensures Spawned(entities[color][|entities[color]| - 1], size)
      ensures AllSpawned(old(entities), size) ==> AllSpawned(entities, size)
      ensures rules == old(rules)
    {
      if color !in entities {
        entities := entities[color := []];
      }
      // rand.Intn(n): any whole number in [0, n)
      var x :| 0 <= x < size.x;
      var y :| 0 <= y < size.y;
      var initialPos := Vec2f(x as real, y as real);
      var spawned := Entity(initialPos, initialPos, Vec2f(0.0, 0.0));
      ghost var before := entities[color];
      entities := entities[color := entities[color] + [spawned]];
      assert entities[color][..|entities[color]| - 1] == before;
    }

    /** Appends one rule to the end of the rule list. */
    method AddRule(color1: string, color2: string, force: real, effectRange: real)
      modifies this
      ensures rules == old(rules) + [Rule(color1, color2, force, effectRange)]
      ensures entities == old(entities)
    {
      rules := rules + [Rule(color1, color2, force, effectRange)];
    }

    /** Discards every entity and rule and rebuilds the state from `s`:
        `s.colors[c]` spawned entities per colour, then the rules of `s` in
        order. The colours are visited in an arbitrary order, as Go's map
        iteration is. */
    method Initialize(s: Settings)
      requires Valid()
      modifies this
      ensures Valid()
      ensures Realizes(entities, rules, s)
      ensures AllSpawned(entities, size)
    {
      entities := map[];
      rules := [];

      var todo := s.colors.Keys;
      while todo != {}
        invariant todo <= s.colors.Keys
        invariant Valid() && rules == []
        invariant forall c :: c in entities <==> c in s.colors && c !in todo && s.colors[c] > 0
        invariant forall c :: c in entities ==> |entities[c]| == s.colors[c]
        invariant AllSpawned(entities, size)
        decreases todo
      {
        var c :| c in todo;
        var i := 0;
        while i < s.colors[c]
          invariant 0 <= i <= s.colors[c]
          invariant Valid() && rules == []
          invariant forall d :: d in entities <==> (d in s.colors && d !in todo && s.colors[d] > 0) || (d == c && i > 0)
          invariant forall d :: d in entities && d != c ==> |entities[d]| == s.colors[d]
          invariant c in entities ==> |entities[c]| == i
          invariant AllSpawned(entities, size)
        {
          AddEntity(c);
          i := i + 1;
        }
        todo := todo - {c};
      }

      var k := 0;
      while k < |s.rules|
        invariant 0 <= k <= |s.rules|
        invariant Valid() && rules == s.rules[..k]
        invariant forall c :: c in entities <==> c in s.colors && s.colors[c] > 0
        invariant forall c :: c in entities ==> |entities[c]| == s.colors[c]
        invariant AllSpawned(entities, size)
      {
        var r := s.rules[k];
        AddRule(r.color1, r.color2, r.force, r.effectRange);
        k := k + 1;
      }
    }

    /** Reads the state back as a settings value without changing it: the
        list length of every colour in the table and a copy of the rules. */
    method GetSettings() returns (s: Settings)
      ensures Describes(s, entities, rules)
    {
      var colors: map<string, nat> := map[];
      var todo := entities.Keys;
      while todo != {}
        invariant todo <= entities.Keys
        invariant colors.Keys == entities.Keys - todo
        invariant forall c :: c in colors ==> colors[c] == |entities[c]|
        decreases todo
      {
        var c :| c in todo;
        colors := colors[c := |entities[c]|];
        todo := todo - {c};
      }

      var copied: seq<Rule> := [];
      var i := 0;
      while i < |rules|
        invariant 0 <= i <= |rules|
        invariant copied == rules[..i]
      {
        copied := copied + [Rule(rules[i].color1, rules[i].color2, rules[i].force, rules[i].effectRange)];
        i := i + 1;
      }
      s := Settings(colors, copied);
    }
  }
}
