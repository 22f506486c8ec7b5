/**
 * The request handler installed with `App.start` (app.ts:48-54): a one-line
 * request is split with JavaScript's `req.split(" ")`, the first token is the
 * command and the rest are its arguments, and only `toggle-popup` does
 * anything: it toggles the popup named by the first argument and answers
 * with the empty string. Every other command is ignored and never answered.
 */
module Requests {
  import opened Wrappers
  import opened Effects

  /** The separator passed to `split`: one space character, not a whitespace run. */
  const Space: char := ' '

  /** The only command the handler recognises. */
  const TogglePopupCommand: string := "toggle-popup"

  predicate SpaceFree(tokens: seq<string>) {
    forall i :: 0 <= i < |tokens| ==> Space !in tokens[i]
  }

  // ---------------------------------------------------------------------------
  // String.prototype.split(" ") and its inverse, Array.prototype.join(" ")
  // ---------------------------------------------------------------------------

  /**
   * `s.split(" ")`: the maximal space-free pieces of `s`, cut at every single
   * space. There is always at least one token; the empty string gives `[""]`
   * and two adjacent spaces give an empty token between them.
   */
  function Split(s: string): (tokens: seq<string>)
    ensures |tokens| >= 1
    ensures SpaceFree(tokens)
    decreases |s|
  {
    if |s| == 0 then [""]
    else
      var rest := Split(s[1..]);
      if s[0] == Space then [""] + rest
      else [[s[0]] + rest[0]] + rest[1..]
  }

  /** `tokens.join(" ")`. */
  function Join(tokens: seq<string>): string
    requires |tokens| >= 1
  {
    if |tokens| == 1 then tokens[0]
    else tokens[0] + [Space] + Join(tokens[1..])
  }

  lemma {:induction false} JoinPrepend(c: char, tokens: seq<string>)
    requires |tokens| >= 1
    ensures Join([[c] + tokens[0]] + tokens[1..]) == [c] + Join(tokens)
  {
  }

  /** Joining the tokens of a split with a space gives back the request text. */
  lemma {:induction false} JoinSplit(s: string)
    ensures Join(Split(s)) == s
    decreases |s|
  {
    if |s| > 0 {
      var rest := Split(s[1..]);
      JoinSplit(s[1..]);
      if s[0] != Space {
        JoinPrepend(s[0], rest);
      }
    }
  }

  /** A space-free word glued to the front of a text extends its first token. */
  lemma {:induction false} SplitAfterWord(w: string, s: string)
    requires Space !in w
    ensures Split(w + s) == [w + Split(s)[0]] + Split(s)[1..]
    decreases |w|
  {
    if |w| == 0 {
      var t := Split(s);
      assert w + s == s && w + t[0] == t[0];
    } else {
      var ws := w + s;
      assert ws[0] == w[0] && ws[1..] == w[1..] + s;
      SplitAfterWord(w[1..], s);
      assert [w[0]] + (w[1..] + Split(s)[0]) == w + Split(s)[0];
    }
  }

  lemma SplitAfterSpace(s: string)
    ensures Split([Space] + s) == [""] + Split(s)
  {
  }

  /**
   * Splitting a join of space-free tokens gives the tokens back. With
   * JoinSplit this makes `Split` the unique decomposition of a text into
   * space-free tokens separated by single spaces.
   */
  lemma {:induction false} SplitJoin(tokens: seq<string>)
    requires |tokens| >= 1 && SpaceFree(tokens)
    ensures Split(Join(tokens)) == tokens
    decreases |tokens|
  {
    if |tokens| == 1 {
      SplitAfterWord(tokens[0], "");
      assert tokens[0] + "" == tokens[0];
    } else {
      var rest := Join(tokens[1..]);
      SplitJoin(tokens[1..]);
      SplitAfterSpace(rest);
      SplitAfterWord(tokens[0], [Space] + rest);
      assert Join(tokens) == tokens[0] + ([Space] + rest);
      assert tokens[0] + "" == tokens[0];
    }
  }

  /** Number of occurrences of the character `c` in `s`. */
  function Occurrences(s: string, c: char): nat {
    if |s| == 0 then 0 else (if s[0] == c then 1 else 0) + Occurrences(s[1..], c)
  }

  /** Every space starts a new token, even when it follows another space. */
  lemma {:induction false} SplitLength(s: string)
    ensures |Split(s)| == Occurrences(s, Space) + 1
    decreases |s|
  {
    if |s| > 0 {
      SplitLength(s[1..]);
    }
  }

  // ---------------------------------------------------------------------------
  // const [cmd, ...args] = req.split(" ")
  // ---------------------------------------------------------------------------

  datatype Request = Request(command: string, args: seq<string>)

  /**
   * The destructuring of the split: the first token is the command and the
   * remaining tokens, in order, are the arguments. Writing them back with
   * single spaces reproduces the request exactly.
   */
  function Parse(line: string): (r: Request)
    ensures Space !in r.command && SpaceFree(r.args)
    ensures Join([r.command] + r.args) == line
  {
    var tokens := Split(line);
    JoinSplit(line);
    Request(tokens[0], tokens[1..])
  }

  /** Parsing is the inverse of writing a command and its arguments with single spaces. */
  lemma ParseJoin(command: string, args: seq<string>)
    requires Space !in command && SpaceFree(args)
    ensures Parse(Join([command] + args)) == Request(command, args)
  {
    var tokens := [command] + args;
    assert SpaceFree(tokens) by {
      forall i | 0 <= i < |tokens| ensures Space !in tokens[i] {
        if i > 0 { assert tokens[i] == args[i - 1]; }
      }
    }
    SplitJoin(tokens);
  }

  /** A command followed by a space and any text: the text's tokens are the arguments. */
  lemma ParseCommandLine(command: string, rest: string)
    requires Space !in command
    ensures Parse(command + [Space] + rest) == Request(command, Split(rest))
  {
    JoinSplit(rest);
    ParseJoin(command, Split(rest));
  }

  /** A request without a space is a bare command with no arguments. */
  lemma ParseBareCommand(command: string)
    requires Space !in command
    ensures Parse(command) == Request(command, [])
  {
  }

  /**
   * The command is the longest space-free prefix of the request; there are
   * arguments exactly when the request holds a space, and then they are the
   * tokens of the text after the first space.
   */
  lemma CommandIsFirstWord(line: string)
    ensures var r := Parse(line);
      && |r.command| <= |line|
      && line[..|r.command|] == r.command
      && (|r.command| == |line| || line[|r.command|] == Space)
      && (r.args == [] <==> Space !in line)
      && (r.args != [] ==> Join(r.args) == line[|r.command| + 1..])
  {
  }

  // ---------------------------------------------------------------------------
  // requestHandler(req, res)
  // ---------------------------------------------------------------------------

  /** `args[0]`: the first argument, or `undefined` when there is none. */
  function Arg0(args: seq<string>): Option<string> {
    if |args| == 0 then None else Some(args[0])
  }

  /** The effects of one call of the handler, in the order it makes them. */
  function Handle(line: string): seq<Event> {
    var r := Parse(line);
    if r.command == TogglePopupCommand then [PopupToggled(Arg0(r.args)), Responded("")]
    else []
  }

  /**
   * The handler acts, and answers, exactly when the request is `toggle-popup`
   * alone or starts with `toggle-popup` and a space; every other request,
   * the empty one included, has no effect and gets no response.
   */
  lemma HandleRecognises(line: string)
    ensures Handle(line) != [] <==>
      line == TogglePopupCommand || TogglePopupCommand + [Space] <= line
    ensures Handle(line) != [] ==>
      Handle(line) == [PopupToggled(Arg0(Parse(line).args)), Responded("")]
  {
    CommandIsFirstWord(line);
    if line == TogglePopupCommand {
      ParseBareCommand(TogglePopupCommand);
    } else if TogglePopupCommand + [Space] <= line {
      var rest := line[|TogglePopupCommand| + 1..];
      assert line == TogglePopupCommand + [Space] + rest;
      ParseCommandLine(TogglePopupCommand, rest);
    }
  }

  /**
   * `toggle-popup NAME ...`: the popup toggled is NAME, the first word after
   * the command, and the answer is the empty string, each exactly once.
   */
  lemma HandleToggleNamed(name: string, tail: string)
    requires Space !in name
    requires tail == "" || tail[0] == Space
    ensures Handle(TogglePopupCommand + [Space] + name + tail)
         == [PopupToggled(Some(name)), Responded("")]
  {
    var rest := name + tail;
    assert TogglePopupCommand + [Space] + name + tail == TogglePopupCommand + [Space] + rest;
    ParseCommandLine(TogglePopupCommand, rest);
    SplitAfterWord(name, tail);
    if tail != "" {
      SplitAfterSpace(tail[1..]);
    }
    assert Split(rest)[0] == name;
  }

  /**
   * `toggle-popup` with no argument still toggles, with `args[0]`
   * undefined, and still answers with the empty string.
   */
  lemma HandleBareToggle()
    ensures Handle(TogglePopupCommand) == [PopupToggled(None), Responded("")]
  {
    ParseBareCommand(TogglePopupCommand);
  }

  /**
   * A trailing space after `toggle-popup` is not the bare command: the first
   * argument is then the empty token, not `undefined`.
   */
  lemma HandleToggleTrailingSpace()
    ensures Handle(TogglePopupCommand + [Space]) == [PopupToggled(Some("")), Responded("")]
  {
    HandleToggleNamed("", "");
    assert TogglePopupCommand + [Space] + "" + "" == TogglePopupCommand + [Space];
  }

  /** The request `toggle-popup bar-popup` toggles `bar-popup` and answers with the empty string. */
  lemma HandleBarPopup()
    ensures Handle("toggle-popup bar-popup") == [PopupToggled(Some("bar-popup")), Responded("")]
  {
    HandleToggleNamed("bar-popup", "");
    assert TogglePopupCommand + [Space] + "bar-popup" + "" == "toggle-popup bar-popup";
  }

  /**
   * Two spaces after the command make the first argument the empty token:
   * `toggle-popup  bar` toggles the popup named "", not `bar`.
   */
  lemma HandleDoubleSpace()
    ensures Handle("toggle-popup  bar") == [PopupToggled(Some("")), Responded("")]
  {
    HandleToggleNamed("", " bar");
    assert TogglePopupCommand + [Space] + "" + " bar" == "toggle-popup  bar";
  }

  // ---------------------------------------------------------------------------
  // The handler over a sequence of requests
  // ---------------------------------------------------------------------------

  /** The effects of handling `lines` one after another; the handler keeps no state. */
  function HandleAll(lines: seq<string>): seq<Event> {
    if |lines| == 0 then [] else Handle(lines[0]) + HandleAll(lines[1..])
  }

  /** How many of `lines` carry the `toggle-popup` command. */
  function ToggleRequests(lines: seq<string>): nat {
    if |lines| == 0 then 0
    else (if Parse(lines[0]).command == TogglePopupCommand then 1 else 0) + ToggleRequests(lines[1..])
  }

  /** Every toggle in `t` is followed at once by an empty answer. */
  predicate Answered(t: seq<Event>) {
    forall i :: 0 <= i < |t| && t[i].PopupToggled? ==> i + 1 < |t| && t[i + 1] == Responded("")
  }

  /**
   * Over any run of requests: every toggle is answered at once with the empty
   * string, there is one answer per `toggle-popup` request and no other
   * answer, and the handler never builds a widget.
   */
  lemma {:induction false} HandleAllAnswers(lines: seq<string>)
    ensures Answered(HandleAll(lines))
    ensures Count(HandleAll(lines), Responded("")) == ToggleRequests(lines)
    ensures forall e :: e in HandleAll(lines) && e.Responded? ==> e.body == ""
    ensures forall s :: Constructed(s) !in HandleAll(lines)
    decreases |lines|
  {
    if |lines| > 0 {
      var h, rest := Handle(lines[0]), HandleAll(lines[1..]);
      HandleAllAnswers(lines[1..]);
      CountAppend(h, rest, Responded(""));
    }
  }
}
