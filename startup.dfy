/**
 * The startup script app.ts runs at module load (app.ts:19-62): write the
 * stylesheet source to a scratch file, compile it with `sass`, start the GTK
 * application with the compiled stylesheet and the request handler, and in
 * the application's `main` callback build the four top-level widgets.
 *
 * The outside world the script talks to is a `Host` whose only state is the
 * trace of effects it has been asked to perform.
 */
module Startup {
  import opened Wrappers
  import opened Effects
  import opened Style
  import opened Requests

  /** The scratch stylesheet source. */
  const TmpScss: string := "/tmp/style.scss"

  /** The compiled stylesheet handed to the application. */
  const Target: string := "/tmp/style.css"

  /** `sass ${tmpscss} ${target}` */
  function CompileCommand(source: string, output: string): string {
    "sass " + source + " " + output
  }

  /** `${SRC}/assets/icons`; SRC is taken as a parameter. */
  function IconsPath(src: string): string {
    src + "/assets/icons"
  }

  /** The effects of the `main` callback: one widget of each kind, in source order. */
  function MainTrace(): seq<Event> {
    [Constructed(Bar), Constructed(Launcher), Constructed(NotificationPopups), Constructed(Panel)]
  }

  /** The effects of the whole startup script, for home directory `home` and source root `src`. */
  function StartupTrace(home: string, src: string, f: Fragments): seq<Event> {
    [ FileWritten(TmpScss, Assemble(ColorsPath(home), f)),
      Executed(CompileCommand(TmpScss, Target)),
      AppStarted(IconsPath(src), Target) ]
    + MainTrace()
  }

  /**
   * The compile command is the word `sass` followed by exactly two
   * arguments, the source path and the output path, when neither contains
   * a space.
   */
  lemma CompileCommandWords(source: string, output: string)
    requires Space !in source && Space !in output
    ensures Split(CompileCommand(source, output)) == ["sass", source, output]
  {
    var words := ["sass", source, output];
    assert Join(words[1..]) == source + [Space] + output;
    assert CompileCommand(source, output) == "sass" + [Space] + (source + [Space] + output);
    assert SpaceFree(words);
    SplitJoin(words);
  }

  /**
   * The steps of startup feed each other: the script writes the assembled
   * stylesheet for the user's colour file to the scratch file, the compiler
   * reads exactly that file and writes the file the application is started
   * with.
   */
  lemma StartupPipeline(home: string, src: string, f: Fragments)
    ensures var t := StartupTrace(home, src, f);
      && t[0].FileWritten? && t[1].Executed? && t[2].AppStarted?
      && t[0].contents == Assemble(ColorsPath(home), f)
      && Split(t[1].command) == ["sass", t[0].path, t[2].css]
  {
    assert Space !in TmpScss by {
      forall i | 0 <= i < |TmpScss| ensures TmpScss[i] != Space { }
    }
    assert Space !in Target by {
      forall i | 0 <= i < |Target| ensures Target[i] != Space { }
    }
    CompileCommandWords(TmpScss, Target);
  }

  /** The `main` callback builds each widget exactly once. */
  lemma MainOnce(s: Surface)
    ensures Count(MainTrace(), Constructed(s)) == 1
  {
  }

  /** Each of the first three steps of startup happens exactly once. */
  lemma PreludeOnce(home: string, src: string, f: Fragments, k: nat)
    requires k < 3
    ensures var t := StartupTrace(home, src, f); Count(t, t[k]) == 1
  {
    var t := StartupTrace(home, src, f);
    var e0, e1, e2, m := t[0], t[1], t[2], MainTrace();
    assert t == [e0] + ([e1] + ([e2] + m));
    CountAppend([e0], [e1] + ([e2] + m), t[k]);
    CountAppend([e1], [e2] + m, t[k]);
    CountAppend([e2], m, t[k]);
    CountSingle(e0, t[k]);
    CountSingle(e1, t[k]);
    CountSingle(e2, t[k]);
  }

  /**
   * Startup writes, compiles and starts once each, in that order, and then
   * builds each of the four widgets exactly once, in the order Bar, Launcher,
   * NotificationPopups, Panel, all after the application has started. It
   * neither toggles a popup nor answers a request.
   */
  lemma StartupOnce(home: string, src: string, f: Fragments)
    ensures var t := StartupTrace(home, src, f);
      && |t| == 7
      && t[0] == FileWritten(TmpScss, Assemble(ColorsPath(home), f))
      && t[1] == Executed(CompileCommand(TmpScss, Target))
      && t[2] == AppStarted(IconsPath(src), Target)
      && Count(t, FileWritten(TmpScss, Assemble(ColorsPath(home), f))) == 1
      && Count(t, Executed(CompileCommand(TmpScss, Target))) == 1
      && Count(t, AppStarted(IconsPath(src), Target)) == 1
      && (forall s :: Count(t, Constructed(s)) == 1)
      && t[3..] == MainTrace()
      && (forall e :: e in t ==> !e.PopupToggled? && !e.Responded?)
  {
    var t := StartupTrace(home, src, f);
    var head := t[..3];
    forall e | e in t ensures !e.PopupToggled? && !e.Responded? {
      var i :| 0 <= i < |t| && t[i] == e;
    }
    forall s ensures Count(t, Constructed(s)) == 1 {
      CountAppend(head, MainTrace(), Constructed(s));
      MainOnce(s);
    }
    PreludeOnce(home, src, f, 0);
    PreludeOnce(home, src, f, 1);
    PreludeOnce(home, src, f, 2);
  }

  /** Startup followed by the handling of `lines`, one request after another. */
  function SessionTrace(home: string, src: string, f: Fragments, lines: seq<string>): seq<Event> {
    StartupTrace(home, src, f) + HandleAll(lines)
  }

  /**
   * However many requests arrive after startup, each widget has been built
   * exactly once, and the process has answered exactly once per
   * `toggle-popup` request, always with the empty string.
   */
  lemma SessionOnce(home: string, src: string, f: Fragments, lines: seq<string>)
    ensures var t := SessionTrace(home, src, f, lines);
      && (forall s :: Count(t, Constructed(s)) == 1)
      && Count(t, Responded("")) == ToggleRequests(lines)
      && (forall e :: e in t && e.Responded? ==> e.body == "")
  {
    var start, rest := StartupTrace(home, src, f), HandleAll(lines);
    StartupOnce(home, src, f);
    HandleAllAnswers(lines);
    forall s ensures Count(start + rest, Constructed(s)) == 1 {
      CountAppend(start, rest, Constructed(s));
    }
    CountAppend(start, rest, Responded(""));
  }

  /**
   * The world the script runs in: files, processes, the GTK application and
   * the widgets. Each foreign call appends its event to `trace`.
   */
  class Host {
    var trace: seq<Event>

    constructor ()
      ensures trace == []
    {
      trace := [];
    }

    /** `writeFile(path, contents)` */
    method WriteFile(path: string, contents: string)
      modifies this
      ensures trace == old(trace) + [FileWritten(path, contents)]
    {
      trace := trace + [FileWritten(path, contents)];
    }

    /** `exec(command)`; its outcome is not inspected by the script. */
    method Exec(command: string)
      modifies this
      ensures trace == old(trace) + [Executed(command)]
    {
      trace := trace + [Executed(command)];
    }

    /** `App.start({icons, css, requestHandler, main})`; the handler is always `RequestHandler`. */
    method AppStart(icons: string, css: string)
      modifies this
      ensures trace == old(trace) + [AppStarted(icons, css)]
    {
      trace := trace + [AppStarted(icons, css)];
    }

    /** `Bar()`, `Launcher()`, `NotificationPopups()` or `Panel()`. */
    method Construct(surface: Surface)
      modifies this
      ensures trace == old(trace) + [Constructed(surface)]
    {
      trace := trace + [Constructed(surface)];
    }

    /** `togglePopupWindow(name)`, where `name` may be `undefined`. */
    method TogglePopupWindow(name: Option<string>)
      modifies this
      ensures trace == old(trace) + [PopupToggled(name)]
    {
      trace := trace + [PopupToggled(name)];
    }

    /** `res(body)` */
    method Res(body: string)
      modifies this
      ensures trace == old(trace) + [Responded(body)]
    {
      trace := trace + [Responded(body)];
    }

    /** `requestHandler(req, res)` */
    method RequestHandler(req: string)
      modifies this
      ensures trace == old(trace) + Handle(req)
    {
      var tokens := Split(req);
      var cmd, args := tokens[0], tokens[1..];
      if cmd == TogglePopupCommand {
        TogglePopupWindow(if |args| > 0 then Some(args[0]) else None);
        Res("");
      }
    }

    /** `main()` */
    method MainCallback()
      modifies this
      ensures trace == old(trace) + MainTrace()
    {
      Construct(Bar);
      Construct(Launcher);
      Construct(NotificationPopups);
      Construct(Panel);
    }

    /** The module's top-level statements. */
    method Run(home: string, src: string, f: Fragments)
      modifies this
      ensures trace == old(trace) + StartupTrace(home, src, f)
    {
      var colorsPath := ColorsPath(home);
      WriteFile(TmpScss, Assemble(colorsPath, f));
      Exec(CompileCommand(TmpScss, Target));
      AppStart(IconsPath(src), Target);
      MainCallback();
    }
  }
}
