/**
 * The observable effects of the shell's startup script and of its request
 * handler, as abstract events. Every call the script makes into code outside
 * it (writing a file, running a process, starting the GTK application,
 * building a widget, toggling a popup, answering a request) is recorded as
 * one event; an effect's own behaviour is not modelled.
 */
module Effects {
  import opened Wrappers

  /** The four top-level widgets built by the application's `main` callback. */
  datatype Surface = Bar | Launcher | NotificationPopups | Panel

  datatype Event =
    | FileWritten(path: string, contents: string)   // writeFile(path, contents)
    | Executed(command: string)                      // exec(command)
    | AppStarted(icons: string, css: string)         // App.start({icons, css, requestHandler, main})
    | Constructed(surface: Surface)                  // Bar(), Launcher(), ...
    | PopupToggled(name: Option<string>)             // togglePopupWindow(args[0])
    | Responded(body: string)                        // res(body)

  /** How many times `e` occurs in the trace `t`. */
  function Count(t: seq<Event>, e: Event): (n: nat)
    ensures n <= |t|
    ensures n == 0 <==> e !in t
  {
    if |t| == 0 then 0
    else (if t[0] == e then 1 else 0) + Count(t[1..], e)
  }

  /** Counting distributes over the concatenation of traces. */
  lemma {:induction false} CountAppend(a: seq<Event>, b: seq<Event>, e: Event)
    ensures Count(a + b, e) == Count(a, e) + Count(b, e)
    decreases |a|
  {
    if |a| > 0 {
      assert (a + b)[1..] == a[1..] + b;
      CountAppend(a[1..], b, e);
    } else {
      assert a + b == b;
    }
  }

  lemma CountSingle(x: Event, e: Event)
    ensures Count([x], e) == if x == e then 1 else 0
  {
  }
}
