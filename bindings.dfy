/**
  The entry points the page calls, `startApp` and `setSettings`, over the
  program's single global engine. JSON decoding is the parameter `parse`:
  `Some(s)` when the text decodes to the settings `s`, `None` when decoding
  fails. The DOM lookups that create the engine are the parameter `canvas`:
  the canvas size when every lookup succeeds, `None` when one fails.
 */
module Bindings {
  import opened Model
  import opened Engine

  /** The settings `startApp` initialises with: those decoded from a string
      argument, or the defaults when the argument is missing, is not a
      string, or does not decode. (The source also tries to decode the
      `String()` form of a non-string value, such as `<number: 5>`; that
      form is never JSON, so the defaults stay.) */
  method ChooseStartSettings(arg: JsArg, parse: string -> Option<Settings>, size: Vec2i)
    returns (settings: Settings)
    ensures arg.Str? && parse(arg.text).Some? ==> settings == parse(arg.text).value
    ensures !(arg.Str? && parse(arg.text).Some?) ==> settings == DefaultSettings(size)
  {
    match arg {
      case Missing =>
        settings := DefaultSettings(size);
      case NonString =>
        settings := DefaultSettings(size);
      case Str(text) =>
        var parsed := parse(text);
        if parsed.None? {
          settings := DefaultSettings(size);
        } else {
          settings := parsed.value;
        }
    }
  }

  /** The settings `setSettings` replaces the state with, or `None` when it
      must return early: a missing argument, a non-string argument, or text
      that does not decode. */
  method ChooseNewSettings(arg: JsArg, parse: string -> Option<Settings>)
    returns (chosen: Option<Settings>)
    ensures chosen.Some? <==> arg.Str? && parse(arg.text).Some?
    ensures chosen.Some? ==> chosen.value == parse(arg.text).value
  {
    if arg.Missing? || arg.NonString? {
      return None;
    }
    var parsed := parse(arg.text);
    if parsed.None? {
      return None;
    }
    chosen := Some(parsed.value);
  }

  class Runtime {
    /** The global `app`: null until `startApp` first succeeds. */
    var app: App?

    ghost predicate Valid()
      reads this, app
    {
      app != null ==> app.Valid()
    }

    constructor ()
      ensures Valid() && app == null
    {
      app := null;
    }

    /** Creates the engine on first use, then initialises it with the
        settings decoded from a string argument, or with the defaults when
        the argument is missing, is not a string, or does not decode.
        Returns false, with no engine, when the engine cannot be created. */
    method StartApp(arg: JsArg, parse: string -> Option<Settings>, canvas: Option<Vec2i>) returns (ok: bool)
      requires Valid()
      requires canvas.Some? ==> canvas.value.x > 0 && canvas.value.y > 0
      modifies this, app
      ensures Valid()
      ensures ok == (old(app) != null || canvas.Some?)
      ensures !ok ==> app == null
      ensures ok && old(app) != null ==> app == old(app)
      ensures ok && old(app) == null ==> app != null && fresh(app) && app.size == canvas.value
      ensures ok ==> app != null && AllSpawned(app.entities, app.size)
      ensures ok && arg.Str? && parse(arg.text).Some? ==>
                app != null && Realizes(app.entities, app.rules, parse(arg.text).value)
      ensures ok && !(arg.Str? && parse(arg.text).Some?) ==>
                app != null && Realizes(app.entities, app.rules, DefaultSettings(app.size))
    {
      if app == null {
        if canvas.None? {
          return false;
        }
        app := new App(canvas.value);
      }
      var settings := ChooseStartSettings(arg, parse, app.size);
      app.Initialize(settings);
      ok := true;
    }

    /** Replaces the engine's settings with those decoded from a string
        argument. A missing engine, a missing or non-string argument, or a
        decoding failure leaves everything as it was. */
    method SetSettings(arg: JsArg, parse: string -> Option<Settings>)
      requires Valid()
      modifies app
      ensures Valid() && app == old(app)
      ensures app != null && arg.Str? && parse(arg.text).Some? ==>
                Realizes(app.entities, app.rules, parse(arg.text).value)
                && AllSpawned(app.entities, app.size)
      ensures !(app != null && arg.Str? && parse(arg.text).Some?) ==>
                app == null || (app.entities == old(app.entities) && app.rules == old(app.rules))
    {
      if app != null {
        var chosen := ChooseNewSettings(arg, parse);
        if chosen.Some? {
          app.Initialize(chosen.value);
        }
      }
    }

    /** The `getSettings` entry point: the engine's settings, read back
        without changing anything. The source dereferences the global
        engine unconditionally, so it must exist. */
    method GetSettings() returns (s: Settings)
      requires app != null
      ensures Describes(s, app.entities, app.rules)
    {
      s := app.GetSettings();
    }
  }
}
