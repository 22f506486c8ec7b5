# Status-bar shell startup and request handler, in Dafny

This project models `app.ts`, the entry point of an AGS/Astal desktop shell
(bar, launcher, notification popups, panel). At module load the script does four things.

- It assembles one SCSS document from an `@import` of the user's colour file,
  a fixed reset rule and five inlined widget stylesheets.
- It writes that document to `/tmp/style.scss` and compiles it with
  `sass /tmp/style.scss /tmp/style.css`.
- It starts the GTK application with the compiled stylesheet and a request
  handler installed.
- In the application's `main` callback it builds Bar, Launcher,
  NotificationPopups and Panel, once each and in that order.

The request handler splits a request line with JavaScript's `split(" ")`.
Only the `toggle-popup` command does anything: it toggles the popup named
by the first argument and answers with the empty string. Every other
request is ignored and never answered.

Files:

- `wrappers.dfy` (`Wrappers`) holds `Option`, for a value that may be `undefined`.
- `effects.dfy` (`Effects`) holds the abstract effect events and counting on traces.
- `requests.dfy` (`Requests`) models `split(" ")` and its inverse `join(" ")`, the
  `[cmd, ...args]` destructuring, and the handler's effects.
- `style.dfy` (`Style`) models the stylesheet document, byte for byte. It is the
  template's seven non-blank pieces (import, reset, misc, bar, panel, notif,
  launcher) with the template's own whitespace between them. `Style.Assemble`
  is a function of the colour path and the five stylesheets, so equal inputs
  give identical documents.
- `startup.dfy` (`Startup`) holds the startup trace, its lemmas, and the class
  `Host`. `Host` is the outside world, and its only state is the trace of
  effects requested so far. Its methods are the script's statements.

Points of `app.ts`'s behaviour worth noting:

- Requests are split at every single space, so consecutive spaces give empty tokens.
- The result of the `sass` process is never checked by `app.ts`. Whether a failed
  compile stops startup depends on whether `exec` throws, which `astal/process` decides.
- The four widgets are built in one fixed order.
- A command other than `toggle-popup` is never answered.

## Model

| member | source | states |
|---|---|---|
| `Requests.Split` | app.ts:49 | `req.split(" ")` always gives at least one token, and no token contains a space |
| `Requests.JoinSplit` | app.ts:49 | joining the split tokens with single spaces gives back the request exactly; empty tokens from doubled or edge spaces are kept |
| `Requests.SplitJoin` | app.ts:49 | splitting a single-space join of space-free tokens gives the tokens back, so the split is the unique such decomposition |
| `Requests.SplitLength` | app.ts:49 | the number of tokens is the number of spaces plus one, so `""` gives one token and each extra space one more |
| `Requests.Parse` | app.ts:49 | `[cmd, ...args]`: command and arguments are space-free, and command followed by arguments, joined with spaces, is the request |
| `Requests.ParseJoin` | app.ts:49 | parsing a command written with its arguments gives back exactly that command and those arguments, in order |
| `Requests.ParseCommandLine` | app.ts:49 | for `cmd + " " + rest`, the command is `cmd` and the arguments are the tokens of `rest` |
| `Requests.ParseBareCommand` | app.ts:49 | a request without a space is a command with no arguments |
| `Requests.CommandIsFirstWord` | app.ts:49 | the command is the longest space-free prefix; arguments exist iff the request has a space, and then they are the tokens after the first space |
| `Requests.HandleRecognises` | app.ts:48-54 | the handler acts iff the request is `toggle-popup` or starts with `toggle-popup `; it then toggles `args[0]` and answers `""`; otherwise it does nothing, the empty request included |
| `Requests.HandleToggleNamed` | app.ts:50-53 | `toggle-popup NAME ...` toggles NAME once, then answers `""` once |
| `Requests.HandleBareToggle` | app.ts:50-53 | `toggle-popup` with no argument still toggles, with `args[0]` undefined, and still answers `""` |
| `Requests.HandleToggleTrailingSpace` | app.ts:49-52 | `toggle-popup ` with a trailing space toggles the popup named `""`, not an undefined one |
| `Requests.HandleBarPopup` | app.ts:49-52 | `toggle-popup bar-popup` toggles `bar-popup` and answers `""` |
| `Requests.HandleDoubleSpace` | app.ts:49-52 | `toggle-popup  bar` with two spaces toggles the popup named `""`, not `bar` |
| `Requests.HandleAllAnswers` | app.ts:48-54 | over any run of requests, each toggle is followed at once by an empty answer, there is one answer per `toggle-popup` request, every answer is `""`, and no widget is built |
| `Style.WeaveSection` | app.ts:25-41 | in the woven document each section appears in full at its start offset and is followed by the next piece of template whitespace |
| `Style.StartNext` | app.ts:25-41 | the next section starts right after this section and the whitespace that follows it |
| `Style.WeaveEnd` | app.ts:25-41 | the whitespace after the last section runs to the end of the document |
| `Style.WeaveFront` | app.ts:25-26 | the document opens with the template's leading whitespace |
| `Style.AssembleLayout` | app.ts:25-41 | the document is the colour import, the reset rule, then misc, bar, panel, notif and launcher, each in full, in that order and not overlapping, with only spaces and line breaks around them |
| `Style.AssembleStartsWithImport` | app.ts:25-26 | the document begins with a line break and indentation, then `@import "<colors>";` |
| `Style.AssembleDeterminesColors` | app.ts:19-26 | with the same stylesheets, two documents are equal only if they import the same colour file |
| `Startup.CompileCommandWords` | app.ts:44 | `sass ${tmpscss} ${target}` is `sass` followed by exactly the two paths as its arguments, when they hold no space |
| `Startup.StartupPipeline` | app.ts:23-55 | startup writes the assembled document to a file; the compiler reads exactly that file and writes exactly the stylesheet the app starts with |
| `Startup.MainOnce` | app.ts:56-61 | `main` builds each of the four widgets exactly once |
| `Startup.PreludeOnce` | app.ts:23-55 | the write, compile and start steps each happen exactly once |
| `Startup.StartupOnce` | app.ts:23-62 | the startup trace is the write, the compile and the start, in that order, then Bar, Launcher, NotificationPopups, Panel. Each step happens exactly once, every widget after the start, and there is no toggle or answer |
| `Startup.SessionOnce` | app.ts:46-62 | after startup and any requests, each widget has been built exactly once, and there is one `""` answer per `toggle-popup` request and no other answer |
| `Startup.Host.WriteFile` | app.ts:23-42 | `writeFile` appends one file-written event to the trace and changes nothing else |
| `Startup.Host.Exec` | app.ts:44 | `exec` appends one executed event |
| `Startup.Host.AppStart` | app.ts:46-55 | `App.start` appends one started event with the icons directory and the stylesheet path |
| `Startup.Host.Construct` | app.ts:57-60 | a widget constructor appends one constructed event |
| `Startup.Host.TogglePopupWindow` | app.ts:51 | `togglePopupWindow` appends one toggle event with its possibly undefined name |
| `Startup.Host.Res` | app.ts:52 | `res` appends one response event |
| `Startup.Host.RequestHandler` | app.ts:48-54 | running the handler's statements appends exactly the handler's effects for that request to the trace |
| `Startup.Host.MainCallback` | app.ts:56-61 | running `main` appends the four constructions in source order |
| `Startup.Host.Run` | app.ts:19-62 | running the script's top-level statements appends exactly the startup trace |

## Left out

- The real `writeFile`, `exec` and `App.start` from the `astal` library do file,
  process and GTK I/O. They appear only as trace events.
- Sass compilation and the contents of the five `.scss` files are left out. The
  files are inlined at build time and are opaque strings here.
- The outcome of `exec` is left out. `app.ts` never inspects it, and whether
  `exec` throws on failure is decided in `astal/process`, which is not part of this model.
- `togglePopupWindow` and the four widget constructors live in modules under
  `src/widget`, which are not part of this model. Only the calls to them are recorded.
- `HOME` comes from `src/shared/constants`, which is not part of this model. It is a parameter.
- `SRC` is used at app.ts:47 but never imported. It is a parameter of
  `Startup.IconsPath`, and what the undeclared name does at run time is not modelled.
- Startup runs `main` right after `App.start`. In the runtime, `App.start` calls
  `main` once the application activates, and that timing is not modelled.
- The request handler passed to `App.start` is not part of the started event.
  It is always `Startup.Host.RequestHandler`, whose effects are `Requests.Handle`.
- Calls to `writeFile`, `exec`, `togglePopupWindow`, `res` and the four widget
  constructors are modelled as returning normally. An exception from one of
  them would cut the trace short (no `res("")` after a throwing toggle, no
  later startup step or widget after a throwing write, compile or constructor).
  `Requests.HandleBareToggle`, `Requests.HandleAllAnswers`,
  `Startup.StartupOnce` and `Startup.SessionOnce` hold under that assumption.
- Concurrency is left out. Requests are handled one at a time, to completion,
  as the single-threaded event loop does.
- Style.AssembleLayout: states where each section sits and in what order, not
  that the import or each stylesheet occurs exactly once. The stylesheets are
  arbitrary text and may themselves contain the same text.
- Startup.CompileCommandWords: splits the command line at single spaces the way
  `split(" ")` does. How `exec` itself tokenises a command string is not modelled.
