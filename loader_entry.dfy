/** The unified loader's entry point: help first, then a run mode chosen
    from the `--gui` / `--console` flags and whether the build targets
    Windows. Flags are matched in any letter case. */
module LoaderEntry {
  import opened Text

  datatype RunMode = Gui | Console

  /** What `Main` goes on to do. */
  datatype Outcome = ShowHelp | RunGui | RunConsole(args: seq<string>)

  /** Some argument equals `flag` once lower-cased (`args.Any(...)`). */
  predicate HasFlag(args: seq<string>, flag: string) {
    exists i :: 0 <= i < |args| && ToLower(args[i]) == flag
  }

  predicate WantsHelp(args: seq<string>) {
    HasFlag(args, "--help") || HasFlag(args, "-h")
  }

  /** `DetermineRunMode`, with whether the console warning about GUI mode is
      printed. Console is chosen when asked for without `--gui`, or wherever
      the build is not for Windows. */
  function DetermineRunMode(args: seq<string>, windowsBuild: bool): (r: (RunMode, bool))
    ensures r.0 == Gui <==> windowsBuild && (HasFlag(args, "--gui") || !HasFlag(args, "--console"))
    ensures r.1 <==> HasFlag(args, "--gui") && !windowsBuild
  {
    var forceGui := HasFlag(args, "--gui");
    var forceConsole := HasFlag(args, "--console") && !forceGui;
    if forceConsole then (Console, false)
    else if forceGui then (if windowsBuild then (Gui, false) else (Console, true))
    else (if windowsBuild then Gui else Console, false)
  }

  /** `Main`: help, or the chosen mode. */
  function Main(args: seq<string>, windowsBuild: bool): Outcome {
    if WantsHelp(args) then ShowHelp
    else
      match DetermineRunMode(args, windowsBuild).0
      case Gui => if windowsBuild then RunGui else RunConsole([])
      case Console => RunConsole(args)
  }

  /** Help wins over every other argument, and otherwise is never shown. */
  lemma HelpShortCircuit(args: seq<string>, windowsBuild: bool)
    ensures Main(args, windowsBuild) == ShowHelp <==> WantsHelp(args)
    ensures forall extra: seq<string> :: WantsHelp(args) ==> Main(args + extra, windowsBuild) == ShowHelp
  {
    forall extra: seq<string> | WantsHelp(args)
      ensures Main(args + extra, windowsBuild) == ShowHelp
    {
      var i := if HasFlag(args, "--help") then
                 var k :| 0 <= k < |args| && ToLower(args[k]) == "--help"; k
               else
                 var k :| 0 <= k < |args| && ToLower(args[k]) == "-h"; k;
      assert (args + extra)[i] == args[i];
    }
  }

  /** The cases of the mode choice: `--gui` decides whenever present, so
      `--console` beside it is dropped. */
  lemma RunModeCases(args: seq<string>, windowsBuild: bool)
    ensures HasFlag(args, "--console") && !HasFlag(args, "--gui") ==> DetermineRunMode(args, windowsBuild) == (Console, false)
    ensures HasFlag(args, "--gui") ==> DetermineRunMode(args, windowsBuild) == (if windowsBuild then (Gui, false) else (Console, true))
    ensures !HasFlag(args, "--gui") && !HasFlag(args, "--console") ==>
              DetermineRunMode(args, windowsBuild) == (if windowsBuild then Gui else Console, false)
  {
  }

  /** Off Windows the GUI is never started, and the console always receives
      the arguments given. */
  lemma NoGuiOffWindows(args: seq<string>)
    ensures Main(args, false) != RunGui
    ensures !WantsHelp(args) ==> Main(args, false) == RunConsole(args)
  {
  }

  lemma LowerOfUpper(s: string)
    ensures ToLower(ToUpper(s)) == ToLower(s)
  {
    forall i | 0 <= i < |s|
      ensures ToLower(ToUpper(s))[i] == ToLower(s)[i]
    {
      var c := s[i];
      assert ToUpper(s)[i] == UpperChar(c);
      if 'a' <= c <= 'z' {
        assert LowerChar(UpperChar(c)) == c;
      }
    }
  }

  /** Every argument upper-cased. */
  function Shouted(args: seq<string>): (r: seq<string>)
    ensures |r| == |args|
  {
    seq(|args|, i requires 0 <= i < |args| => ToUpper(args[i]))
  }

  lemma HasFlagShouted(args: seq<string>, flag: string)
    ensures HasFlag(Shouted(args), flag) <==> HasFlag(args, flag)
  {
    forall i | 0 <= i < |args|
      ensures ToLower(Shouted(args)[i]) == ToLower(args[i])
    {
      LowerOfUpper(args[i]);
    }
  }

  /** Letter case does not matter to the choice: upper-casing every
      argument gives the same help decision and the same mode. */
  lemma FlagsIgnoreCase(args: seq<string>, windowsBuild: bool)
    ensures WantsHelp(Shouted(args)) <==> WantsHelp(args)
    ensures DetermineRunMode(Shouted(args), windowsBuild) == DetermineRunMode(args, windowsBuild)
  {
    HasFlagShouted(args, "--help");
    HasFlagShouted(args, "-h");
    HasFlagShouted(args, "--gui");
    HasFlagShouted(args, "--console");
  }
}
