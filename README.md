# Particle engine settings bookkeeping, in Dafny

This project models the part of the Go simulation engine of the *particles* repository that keeps track of its state (`main.go`):

- the engine `App` and its two updatable fields: `entities`, a map from a colour to that colour's list of entities, and `rules`, a list of rules;
- the operations that maintain them: `addEntity`, `addRule`, `initialize` and `getSettings`;
- how the `startApp` and `setSettings` entry points choose the settings the engine is initialised with.

The modules are:

- `Model` (model.dfy) holds the values: entity, rule, settings, canvas size and page argument. It also holds two relations:
  - `Realizes`: what `initialize` builds from a settings value;
  - `Describes`: what `getSettings` reads back.
  The lemmas connecting the two relations live here too.
- `Engine` (engine.dfy) holds the class `App`. `entities` is a `map<string, seq<Entity>>` field and `rules` a `seq<Rule>` field, and the methods reassign them. `Initialize` and `GetSettings` keep the source's loops.
- `Bindings` (bindings.dfy) holds the class `Runtime`. Its field `app` is the program's global engine pointer. `StartApp` and `SetSettings` are the two entry points. `GetSettings` is the read-back entry point. Two read-only methods beside the class hold the settings choice of each entry point: `ChooseStartSettings` and `ChooseNewSettings`.

The engine's settings hold only the colour counts (`c`) and the rules (`r`).

## Model

| member | source | states |
|---|---|---|
| `Engine.App.constructor` | main.go:85-92 | a new engine has the given positive canvas size, no entities and no rules |
| `Engine.App.AddEntity` | main.go:100-111 | the colour becomes a key if it was not one; its list grows by exactly one entity and the earlier entries are kept as a prefix; the new entity has whole-number coordinates in [0, width) × [0, height), a pending position equal to its position, and zero speed; other colours' lists and the rules are unchanged |
| `Engine.App.AddRule` | main.go:113-115 | the rule list becomes the old list followed by exactly one rule with the given colours, force and range; the entities are unchanged |
| `Engine.App.Initialize` | main.go:117-135 | no earlier entity or rule survives; the keys are exactly the colours with a positive count, each with exactly that many freshly spawned entities; the rules equal the given rules in the same order |
| `Engine.App.GetSettings` | main.go:137-157 | changes nothing; the result has a count for exactly the keys of the table, each equal to the length of that colour's list, and the rules copied element by element in order |
| `Bindings.ChooseStartSettings` | main.go:250-279 | a string argument that decodes gives the decoded settings; a missing argument, a non-string argument or a decode failure gives the defaults |
| `Bindings.ChooseNewSettings` | main.go:294-306 | gives settings exactly when the argument is a string that decodes, and then the decoded settings; a missing argument, a non-string argument or a decode failure gives nothing, which makes the caller return early |
| `Bindings.Runtime.constructor` | main.go:235 | the global engine starts out absent |
| `Bindings.Runtime.StartApp` | main.go:239-285 | creates the engine when it is absent, or fails and leaves it absent when the canvas cannot be set up; reuses an existing engine; a string argument that decodes initialises with the decoded settings; a missing argument, a non-string argument or a decode failure initialises with the defaults |
| `Bindings.Runtime.SetSettings` | main.go:287-310 | with an engine and a string argument that decodes, the effect is that of `initialize` with the decoded settings; a missing engine, a missing or non-string argument, or a decode failure leaves the state unchanged |
| `Bindings.Runtime.GetSettings` | main.go:312-319 | requires the engine to exist; returns what the engine's `getSettings` reads back, without changing anything |
| `Model.DescribesUnique` | main.go:137-157 | a table is described by exactly one settings value, so two consecutive reads of an unchanged engine return equal values |
| `Model.RoundTrip` | main.go:117-157 | reading back right after initialising with `s` gives exactly the rules of `s` and the counts of `s` restricted to its positive counts |
| `Model.ZeroCountAbsent` | main.go:124-145 | a colour given with count 0 never becomes a key, so it is absent from what is read back |
| `Model.RealizesNoEmptyLists` | main.go:121-128 | after initialising, every colour in the table has at least one entity |
| `Model.DescribedCountsPositive` | main.go:143-145 | from a table without empty lists, every count read back is positive |
| `Model.ReloadIsStable` | main.go:117-157 | initialising with the settings just read back, then reading again, returns the same settings |
| `Model.DefaultsRoundTrip` | main.go:254-266 | initialising with the defaults and reading back gives red 20, blue 20 and the four default rules, with ranges width/5, width/8, width/5, width/8 |

## Left out

- `update` (main.go:159-211) is not modelled. It is float64 physics with square roots, division, damping and bounce clamps. Since it is left out, every entity in this model is exactly as spawned.
- `render`, `drawRect`, `run` and the animation-frame callback (main.go:95-98, 213-233) are not modelled. They are canvas drawing and the animation loop. `StartApp` does not model the call to `app.run()` that follows `initialize`.
- `newApp` (main.go:54-93) is not modelled: it looks up the DOM window, document and canvas. Its outcome is the `canvas` parameter of `StartApp`.
- `Engine.App.constructor`: requires a positive canvas size. The source accepts any size, but then `rand.Intn` panics on the first spawned entity. `globalLoss` (0.98) is used only by `update` and is not a field of the model.
- The `sync.Mutex` locking in `initialize` and `run` is not modelled. Each operation is treated as atomic.
- JSON decoding and encoding (`encoding/json`, the `omitempty` tags) are not modelled. Decoding is the function parameter `parse`, which gives an optional settings value.
- `Bindings.Runtime.StartApp`: when the engine cannot be created, the source returns the Go `error` value from the `js.FuncOf` callback (main.go:243-247). The `syscall/js` runtime panics on that value, so the program stops and every later `startApp`, `setSettings` or `getSettings` call fails. The model instead returns `false` and a usable `Runtime`, so it does not capture that later calls fail after a failed start.
- `Bindings.Runtime.GetSettings`: requires the engine to exist. The source dereferences the global `app` unconditionally (main.go:313), so a call before a successful start is a nil-pointer panic, which the model does not capture.
- `Bindings.Runtime.GetSettings`: returns the settings value, not its JSON text. Marshalling is not modelled, and neither is the marshalling-error path (main.go:314-317).
- `Bindings.ChooseStartSettings`: a non-string argument is modelled as giving the defaults directly. The source first sets the defaults and then decodes the argument's `String()` form into them. That form (`<number: 5>`, `<undefined>`, …) is never valid JSON, so decoding fails and the defaults stay.
- `math/rand` is not modelled. Each `rand.Intn(n)` is an arbitrary choice of a whole number in [0, n).
- `log` output is not modelled.
- Entities are values, not pointers to heap objects. The bookkeeping never changes an entity after creating it, so identity and aliasing between entities are not captured.
- Colour counts are unbounded naturals, not Go's 64-bit `uint`. A count large enough to wrap cannot be allocated anyway.
- Rule forces and ranges are exact reals rather than float64 values. The bookkeeping only copies them. The default forces (-0.1, 0.8, 0.5, -0.8) are the exact decimals, not their nearest float64 values.
- app.js, src/App.js and server/server.go are not modelled. They are the DOM settings dialog, the React page and a static file server.
