/**
 * The text user interface of kyui.py: a navigation stack of menu ids with
 * 'main' at the bottom, the menu logic that reacts to a number typed by the
 * user, the path shown above the menu, and the main loop that runs until a
 * command comes back.  The menu's calls to the logger are kept as a trace of
 * `Note` values, like those of the other components.
 */
module Menu {
  import opened Wrappers
  import opened Text
  import opened Reports
  import opened Logging

  const MainMenu: string := "main"

  /** What `navExit` hands to the logger. */
  const ExitNote: Note := Note(Plain("Exiting..."), Some("c"), None)

  /** A navigation path as the interface keeps it: never empty, with 'main' at the bottom. */
  predicate Rooted(path: seq<string>)
  {
    |path| >= 1 && path[0] == MainMenu
  }

  /** `menuLogic`'s effect: the new path and the command returned, or the IndexError of `navPath[-1]` on an empty path. */
  datatype MenuOutcome = Done(path: seq<string>, command: Option<string>) | IndexRaised

  /**
   * `menuLogic(userInput)` on the path: 0 on 'main' exits, 0 elsewhere goes
   * back one menu, anything else stays where it is and returns None.
   */
  function MenuStep(path: seq<string>, userInput: int): (r: MenuOutcome)
    ensures r.IndexRaised? <==> path == []
    ensures r.Done? ==> r.command == None || r.command == Some("exit")
    ensures r.Done? ==> r.path <= path && |path| <= |r.path| + 1
  {
    if path == [] then IndexRaised
    else if userInput == 0 then
      if path[|path| - 1] == MainMenu then Done(path, Some("exit"))
      else Done(path[..|path| - 1], None)
    else Done(path, None)
  }

  /** 'exit' comes back exactly for input 0 with 'main' on top, and then the path is left as it was. */
  lemma MenuStepExit(path: seq<string>, userInput: int)
    requires path != []
    ensures MenuStep(path, userInput).command == Some("exit") <==> userInput == 0 && path[|path| - 1] == MainMenu
    ensures MenuStep(path, userInput).command.Some? ==> MenuStep(path, userInput).path == path
  {
  }

  /** Input 0 on any other menu pops exactly that menu and returns None. */
  lemma MenuStepBack(path: seq<string>)
    requires path != [] && path[|path| - 1] != MainMenu
    ensures MenuStep(path, 0) == Done(path[..|path| - 1], None)
  {
  }

  /** Every non-zero input returns None and leaves the path unchanged. */
  lemma MenuStepNonZero(path: seq<string>, userInput: int)
    requires path != [] && userInput != 0
    ensures MenuStep(path, userInput) == Done(path, None)
  {
  }

  /** On a rooted path the menu logic never raises and the path stays rooted. */
  lemma MenuStepKeepsRoot(path: seq<string>, userInput: int)
    requires Rooted(path)
    ensures MenuStep(path, userInput).Done? && Rooted(MenuStep(path, userInput).path)
  {
  }

  /** The calls the rest of the program can make on the navigation stack. */
  datatype NavAction = Push(menuId: string) | Choose(userInput: int)

  /** The path after a run of `navPathUpdate` and `menuLogic` calls, or None once one of them raises. */
  function Replay(path: seq<string>, actions: seq<NavAction>): Option<seq<string>>
    decreases |actions|
  {
    if actions == [] then Some(path)
    else match actions[0]
      case Push(id) => Replay(path + [id], actions[1..])
      case Choose(n) =>
        match MenuStep(path, n)
        case IndexRaised => None
        case Done(p, _) => Replay(p, actions[1..])
  }

  /** From a rooted path, no run of pushes and menu choices raises, empties the path or moves 'main' off the bottom. */
  lemma {:induction false} ReplayKeepsRoot(path: seq<string>, actions: seq<NavAction>)
    requires Rooted(path)
    ensures Replay(path, actions).Some? && Rooted(Replay(path, actions).value)
    decreases |actions|
  {
    if actions != [] {
      match actions[0]
      case Push(id) =>
        ReplayKeepsRoot(path + [id], actions[1..]);
      case Choose(n) =>
        MenuStepKeepsRoot(path, n);
        ReplayKeepsRoot(MenuStep(path, n).path, actions[1..]);
    }
  }

  /** The line `printMenuPath` writes: "- " and the menu ids joined by " > ". */
  function PathDisplay(path: seq<string>): string
  {
    "- " + Join(" > ", path)
  }

  /** Entering a menu extends the displayed path by " > " and its id. */
  lemma PathDisplayPush(path: seq<string>, menuId: string)
    requires path != []
    ensures PathDisplay(path + [menuId]) == PathDisplay(path) + " > " + menuId
  {
    JoinSnoc(" > ", path, menuId);
  }

  /** The displayed path of a rooted path starts with "- main", and at the start it is exactly that. */
  lemma {:induction false} PathDisplayRooted(path: seq<string>)
    requires Rooted(path)
    ensures |PathDisplay(path)| >= 6 && PathDisplay(path)[..6] == "- main"
    ensures path == [MainMenu] ==> PathDisplay(path) == "- main"
    decreases |path|
  {
    if |path| == 1 {
      assert path == [MainMenu];
    } else {
      var front := path[..|path| - 1];
      assert path == front + [path[|path| - 1]];
      PathDisplayRooted(front);
      PathDisplayPush(front, path[|path| - 1]);
    }
  }

  /** One keyboard read of the main loop: a number, or Ctrl-C, which the loop swallows. */
  datatype Input = Entered(n: int) | Interrupted

  /** How `main` ends. */
  datatype Exit =
    | Command(name: string)      // returned to the caller
    | LoggerRaised               // a logger call raised KeyError (unknown colour): setLogDir's error or the first printInterface write
    | MenuRaised                 // menuLogic raised IndexError (empty path)
    | InputsExhausted            // the given inputs ran out: `input()` at end of input raises EOFError, which leaves `main`

  /** The state the main loop leaves behind. */
  datatype Ending = Ending(path: seq<string>, subPage: Option<string>, exit: Exit, notes: seq<Note>)

  /**
   * The `while True` loop of `main` over the given inputs, from the path, the
   * pending sub-page and the logger calls made so far.  Each iteration first
   * shows a truthy sub-page once, then reads a number and feeds it to the
   * menu logic, returning the first truthy command.  The iteration whose
   * read finds the input exhausted still shows the sub-page first.
   */
  function Session(path: seq<string>, subPage: Option<string>, inputs: seq<Input>, notes: seq<Note>): Ending
    decreases |inputs|
  {
    var told := if Truthy(subPage) then notes + [Note(Plain(subPage.value), Some("c"), None)] else notes;
    var pending := if Truthy(subPage) then None else subPage;
    if inputs == [] then Ending(path, pending, InputsExhausted, told)
    else
      match inputs[0]
      case Interrupted => Session(path, pending, inputs[1..], told)
      case Entered(n) =>
        match MenuStep(path, n)
        case IndexRaised => Ending(path, pending, MenuRaised, told)
        case Done(p, command) =>
          var exited := if command.Some? then told + [ExitNote] else told;
          if Truthy(command) then Ending(p, pending, Command(command.value), exited)
          else Session(p, pending, inputs[1..], exited)
  }

  /**
   * From a rooted path the loop only ever returns 'exit', which it does with
   * 'main' on top after logging "Exiting..."; the menu logic never raises
   * IndexError and the path stays rooted.  With 'main' on top, as after
   * start-up, the path never changes at all.
   */
  lemma {:induction false} SessionOnlyExits(path: seq<string>, subPage: Option<string>, inputs: seq<Input>, notes: seq<Note>)
    requires Rooted(path)
    ensures var e := Session(path, subPage, inputs, notes);
            && (e.exit == Command("exit") || e.exit == InputsExhausted)
            && Rooted(e.path)
            && (e.exit.Command? ==> e.path[|e.path| - 1] == MainMenu && e.notes != [] && e.notes[|e.notes| - 1] == ExitNote)
            && (path[|path| - 1] == MainMenu ==> e.path == path)
    decreases |inputs|
  {
    if inputs != [] {
      var told := if Truthy(subPage) then notes + [Note(Plain(subPage.value), Some("c"), None)] else notes;
      var pending := if Truthy(subPage) then None else subPage;
      match inputs[0]
      case Interrupted =>
        SessionOnlyExits(path, pending, inputs[1..], told);
      case Entered(n) =>
        MenuStepKeepsRoot(path, n);
        var r := MenuStep(path, n);
        var exited := if r.command.Some? then told + [ExitNote] else told;
        if !Truthy(r.command) {
          SessionOnlyExits(r.path, pending, inputs[1..], exited);
        }
    }
  }

  /**
   * Every write of the interface passes 'c' and no colour: in either mode it
   * reaches the console in the logger's colour, so with an unknown colour
   * each of them raises KeyError.
   */
  lemma InterfaceWritesReachConsole(verbose: bool, defaultModifiers: string, color: string)
    ensures Route(verbose, defaultModifiers, color, Some("c"), None) == Routing(true, verbose, color)
  {
    ContainsChar("c", 'c');
    ContainsChar("c", 'l');
    assert !Contains("c", "-v") by {
      assert !Contains("", "-v");
    }
  }

  /** The user interface object of kyui.py. */
  class UserInterface {
    var uiColor: string
    var artEnabled: bool
    var scribe: Scribe
    var navPath: seq<string>
    var subPage: Option<string>
    var notes: seq<Note>

    /** The stack starts at 'main', and the logger's default colour becomes the interface colour. */
    constructor (defaultUIColor: string, artEnabled: bool, scribeObject: Scribe)
      modifies scribeObject
      ensures uiColor == defaultUIColor && this.artEnabled == artEnabled && scribe == scribeObject
      ensures navPath == [MainMenu] && subPage == None && notes == []
      ensures Valid()
      ensures scribeObject.color == defaultUIColor
      ensures scribeObject.logDir == old(scribeObject.logDir) && scribeObject.logName == old(scribeObject.logName)
      ensures scribeObject.verbose == old(scribeObject.verbose)
      ensures scribeObject.outputModifiers == old(scribeObject.outputModifiers)
      ensures scribeObject.console == old(scribeObject.console) && scribeObject.logFile == old(scribeObject.logFile)
    {
      uiColor := defaultUIColor;
      this.artEnabled := artEnabled;
      scribe := scribeObject;
      navPath := [MainMenu];
      subPage := None;
      notes := [];
      new;
      scribeObject.color := defaultUIColor;
    }

    /** The stack invariant: never empty, 'main' at the bottom. */
    predicate Valid()
      reads this
    {
      Rooted(navPath)
    }

    /** `navPathUpdate(menuID)`: push the menu. */
    method NavPathUpdate(menuId: string)
      modifies this`navPath
      ensures navPath == old(navPath) + [menuId]
      ensures old(Valid()) ==> Valid()
    {
      navPath := navPath + [menuId];
    }

    /** `navBack`: pop the top menu; `pop` on an empty list raises IndexError. */
    method NavBack() returns (raised: bool)
      modifies this`navPath
      ensures raised <==> old(navPath) == []
      ensures !raised ==> navPath == old(navPath)[..|old(navPath)| - 1]
      ensures raised ==> navPath == old(navPath)
    {
      if navPath == [] {
        return true;
      }
      navPath := navPath[..|navPath| - 1];
      raised := false;
    }

    /** `navExit`: the goodbye message (the screen clear is not modelled). */
    method NavExit()
      modifies this`notes
      ensures notes == old(notes) + [ExitNote]
    {
      notes := notes + [ExitNote];
    }

    /** `menuLogic(userInput)`, against `MenuStep`; `raised` is the IndexError of `navPath[-1]`. */
    method MenuLogic(userInput: int) returns (command: Option<string>, raised: bool)
      modifies this`navPath, this`notes
      ensures var r := MenuStep(old(navPath), userInput);
              && raised == r.IndexRaised?
              && (r.Done? ==> navPath == r.path && command == r.command)
              && (raised ==> navPath == old(navPath) && command == None)
      ensures notes == old(notes) + (if command.Some? then [ExitNote] else [])
      ensures old(Valid()) ==> Valid() && !raised
    {
      if navPath == [] {
        return None, true;
      }
      raised := false;
      var menu := navPath[|navPath| - 1];
      if userInput == 0 {
        if menu == MainMenu {
          NavExit();
          return Some("exit"), false;
        }
        var _ := NavBack();
        return None, false;
      }
      command := None;
    }

    /** `printMenuPath`: one console line with the displayed path. */
    method PrintMenuPath()
      modifies this`notes
      ensures notes == old(notes) + [Note(Plain(PathDisplay(navPath)), Some("c"), None)]
    {
      var pathDisplay := Join(" > ", navPath);
      notes := notes + [Note(Plain("- " + pathDisplay), Some("c"), None)];
    }

    /**
     * `main`: point the logger at "logs" (mkdir failing with `mkdirError`)
     * and name the log "kyui", then run the loop over `inputs`.  The loop's
     * first `printInterface` writes to the console in the logger's colour
     * (see InterfaceWritesReachConsole), so an unknown colour raises KeyError
     * there, if `setLogDir` has not raised it already.  `main` runs on the
     * interface as constructed, whose path has 'main' on top; on any other
     * top menu `printMenuBody` would raise KeyError.
     */
    method Run(inputs: seq<Input>, mkdirError: Option<string>) returns (exit: Exit)
      requires Valid() && navPath[|navPath| - 1] == MainMenu
      modifies this, scribe
      ensures scribe == old(scribe) && uiColor == old(uiColor) && artEnabled == old(artEnabled)
      ensures scribe.verbose == old(scribe.verbose) && scribe.outputModifiers == old(scribe.outputModifiers)
      ensures scribe.color == old(scribe.color) && scribe.logFile == old(scribe.logFile)
      ensures scribe.logDir == (if mkdirError.None? then Some("logs") else old(scribe.logDir))
      ensures scribe.console == old(scribe.console)
                                + (if mkdirError.Some? && scribe.color in ColorCodes
                                   then [Paint(LogDirError + mkdirError.value, scribe.color)] else [])
      ensures scribe.logName == (if mkdirError.Some? && scribe.color !in ColorCodes then old(scribe.logName) else Some("kyui"))
      ensures exit == LoggerRaised <==> scribe.color !in ColorCodes
      ensures exit == LoggerRaised ==> subPage == old(subPage) && notes == old(notes)
      ensures exit != LoggerRaised ==>
                var e := Session(old(navPath), old(subPage), inputs, old(notes));
                exit == e.exit && subPage == e.subPage && notes == e.notes
      ensures exit == LoggerRaised || exit == Command("exit") || exit == InputsExhausted
      ensures Valid() && navPath == old(navPath)
    {
      var raisedInSetLogDir := scribe.SetLogDir("logs", mkdirError);
      if raisedInSetLogDir {
        return LoggerRaised;
      }
      scribe.logName := Some("kyui");
      InterfaceWritesReachConsole(scribe.verbose, scribe.outputModifiers, scribe.color);
      if scribe.color !in ColorCodes {
        return LoggerRaised;
      }
      SessionOnlyExits(navPath, subPage, inputs, notes);
      exit := Loop(inputs);
    }

    /** The `while True` loop of `main`, against `Session`. */
    method Loop(inputs: seq<Input>) returns (exit: Exit)
      requires Valid() && navPath[|navPath| - 1] == MainMenu
      modifies this`navPath, this`subPage, this`notes
      ensures var e := Session(old(navPath), old(subPage), inputs, old(notes));
              exit == e.exit && subPage == e.subPage && notes == e.notes
      ensures navPath == old(navPath)
    {
      ghost var e := Session(navPath, subPage, inputs, notes);
      var i := 0;
      while i < |inputs|
        invariant 0 <= i <= |inputs|
        invariant navPath == old(navPath)
        invariant Session(navPath, subPage, inputs[i..], notes) == e
      {
        assert inputs[i..][0] == inputs[i] && inputs[i..][1..] == inputs[i + 1..];
        ghost var subPageBefore, notesBefore := subPage, notes;
        if Truthy(subPage) {
          notes := notes + [Note(Plain(subPage.value), Some("c"), None)];
          subPage := None;
        }
        var command: Option<string> := None;
        if inputs[i].Entered? {
          var raised;
          command, raised := MenuLogic(inputs[i].n);
          assert !raised;
        }
        if Truthy(command) {
          return Command(command.value);
        }
        assert command == None;
        ghost var told := if Truthy(subPageBefore) then notesBefore + [Note(Plain(subPageBefore.value), Some("c"), None)] else notesBefore;
        ghost var pending := if Truthy(subPageBefore) then None else subPageBefore;
        assert subPage == pending;
        assert notes == told;
        if inputs[i].Entered? {
          assert MenuStep(navPath, inputs[i].n) == Done(navPath, None);
        }
        assert Session(navPath, subPageBefore, inputs[i..], notesBefore)
             == Session(navPath, subPage, inputs[i + 1..], notes);
        i := i + 1;
      }
      if Truthy(subPage) {
        notes := notes + [Note(Plain(subPage.value), Some("c"), None)];
        subPage := None;
      }
      exit := InputsExhausted;
    }
  }
}
