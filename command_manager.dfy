/** The slash commands of the console: `/exit`, `/help`, `/save [path]` and
    `/load [path]`. Any other input starting with `/` is an unknown command,
    which is handled (the user is told so) but does nothing. */
module CommandManager {
  import opened Text
  import Agent

  /** The history file `/save` and `/load` use when no path is given. */
  const DefaultHistoryPath: string := "chat_history.json"

  /** What an input line asks for. */
  datatype Command =
    | NotCommand
    | Exit
    | Help
    | Save(path: string)
    | Load(path: string)
    | Unknown(text: string)

  lemma DefaultTrimmed()
    ensures Trimmed(DefaultHistoryPath)
  {
    assert DefaultHistoryPath[0] == 'c' && DefaultHistoryPath[|DefaultHistoryPath| - 1] == 'n';
  }

  /** The path of a `/save` or `/load` command: the trimmed text after its
      sixth character when there is any, and the default path otherwise. */
  function PathArgument(cmd: string): (path: string)
    ensures Trimmed(path)
    ensures path == DefaultHistoryPath || (|cmd| > 6 && path == Trim(cmd[6..]))
  {
    DefaultTrimmed();
    if |cmd| > 6 then
      var arg := Trim(cmd[6..]);
      TrimProperties(cmd[6..]);
      if |arg| > 0 then arg else DefaultHistoryPath
    else DefaultHistoryPath
  }

  /** The classification of `TryHandleCommand`. Only an input whose very
      first character is `/` is a command; the rest of the tests look at the
      trimmed input and ignore the case of ASCII letters. */
  function Parse(input: string): (c: Command)
    ensures c.NotCommand? <==> |input| == 0 || input[0] != '/'
    ensures c.Exit? <==> |input| > 0 && input[0] == '/' && EqualsIgnoreCase(Trim(input), "/exit")
    ensures c.Help? <==> |input| > 0 && input[0] == '/' && EqualsIgnoreCase(Trim(input), "/help")
    ensures c.Save? <==> |input| > 0 && input[0] == '/' && Names(Trim(input), "/save")
    ensures c.Load? <==> |input| > 0 && input[0] == '/' && Names(Trim(input), "/load")
    ensures c.Save? || c.Load? ==> Trimmed(c.path) && c.path == PathArgument(Trim(input))
    ensures c.Unknown? ==> c.text == Trim(input)
  {
    if |input| == 0 || !StartsWith(input, "/") then NotCommand
    else
      var cmd := Trim(input);
      DistinctNames(cmd);
      if EqualsIgnoreCase(cmd, "/exit") then Exit
      else if EqualsIgnoreCase(cmd, "/help") then Help
      else if Names(cmd, "/save") then Save(PathArgument(cmd))
      else if Names(cmd, "/load") then Load(PathArgument(cmd))
      else Unknown(cmd)
  }

  /** The trimmed command is the command `name` alone or followed by a space,
      ignoring case. */
  predicate Names(cmd: string, name: string) {
    EqualsIgnoreCase(cmd, name) || StartsWithIgnoreCase(cmd, name + " ")
  }

  /** At most one of the four commands matches: their second letters differ. */
  lemma DistinctNames(cmd: string)
    ensures EqualsIgnoreCase(cmd, "/exit") ==> !EqualsIgnoreCase(cmd, "/help") && !Names(cmd, "/save") && !Names(cmd, "/load")
    ensures EqualsIgnoreCase(cmd, "/help") ==> !Names(cmd, "/save") && !Names(cmd, "/load")
    ensures Names(cmd, "/save") ==> !Names(cmd, "/load")
  {
    if |cmd| >= 2 {
      assert Fold(cmd)[1] == UpperChar(cmd[1]);
      if |cmd| >= 6 {
        assert Fold(cmd[..6])[1] == UpperChar(cmd[1]);
      }
      if |cmd| >= 5 {
        assert Fold(cmd[..5])[1] == UpperChar(cmd[1]);
      }
    }
  }

  /** `/exit` in any mix of cases, with any white space after it, asks to
      leave; the same line with a blank in front is no command at all. */
  lemma ExitAnyCase(word: string, blanks: string)
    requires |word| == 4 && Fold(word) == Fold("exit")
    requires forall i :: 0 <= i < |blanks| ==> IsWhiteSpace(blanks[i])
    ensures Parse("/" + word + blanks) == Exit
    ensures Parse(" /" + word + blanks) == NotCommand
  {
    var input := "/" + word + blanks;
    assert UpperChar(word[3]) == 'T';
    var t := TrimStartBy(input, IsWhiteSpace);
    assert t == input;
    var r := TrimEndBy(t, IsWhiteSpace);
    assert !IsWhiteSpace(input[4]);
    assert forall i :: 5 <= i < |input| ==> IsWhiteSpace(input[i]) by {
      assert forall i :: 5 <= i < |input| ==> input[i] == blanks[i - 5];
    }
    assert |r| == 5;
    assert Trim(input) == "/" + word;
    assert Fold("/" + word) == Fold("/exit") by {
      FoldAppend("/", word);
      FoldAppend("/", "exit");
    }
    assert (" /" + word + blanks)[0] == ' ';
  }

  /** A command line written as `/save <path>` reads back as that command
      with that very path. */
  lemma SaveRoundTrip(path: string)
    requires Trimmed(path)
    ensures Parse("/save " + path) == Save(path)
  {
    var cmd := "/save " + path;
    TrimmedFixed(cmd);
    assert !EqualsIgnoreCase(cmd, "/exit") && !EqualsIgnoreCase(cmd, "/help") by {
      assert |Fold(cmd)| > 6;
    }
    assert StartsWithIgnoreCase(cmd, "/save ") by {
      assert cmd[..6] == "/save ";
    }
    assert PathArgument(cmd) == path by {
      assert cmd[6..] == path;
      TrimmedFixed(path);
    }
  }

  /** The same for `/load <path>`. */
  lemma LoadRoundTrip(path: string)
    requires Trimmed(path)
    ensures Parse("/load " + path) == Load(path)
  {
    var cmd := "/load " + path;
    TrimmedFixed(cmd);
    assert !EqualsIgnoreCase(cmd, "/exit") && !EqualsIgnoreCase(cmd, "/help") && !EqualsIgnoreCase(cmd, "/save") by {
      assert |Fold(cmd)| > 6;
    }
    assert !StartsWithIgnoreCase(cmd, "/save ") by {
      assert Fold(cmd[..6])[1] == 'L' && Fold("/save ")[1] == 'S';
    }
    assert StartsWithIgnoreCase(cmd, "/load ") by {
      assert cmd[..6] == "/load ";
    }
    assert PathArgument(cmd) == path by {
      assert cmd[6..] == path;
      TrimmedFixed(path);
    }
  }

  /** `/save` or `/load` followed directly by more than white space, as in
      `/savex`, is an unknown command. */
  lemma RunOnIsUnknown(cmd: string)
    requires Trimmed(cmd) && |cmd| > 5 && cmd[0] == '/' && cmd[5] != ' '
    requires Fold(cmd[..5]) == Fold("/save") || Fold(cmd[..5]) == Fold("/load")
    ensures Parse(cmd) == Unknown(cmd)
  {
    TrimmedFixed(cmd);
    assert |Fold(cmd)| != 5;
    assert Fold(cmd[..6])[5] == UpperChar(cmd[5]) != ' ';
    assert !Names(cmd, "/save") && !Names(cmd, "/load") by {
      assert Fold(cmd[..6])[5] != Fold("/save ")[5];
      assert Fold(cmd[..6])[5] != Fold("/load ")[5];
    }
    assert !EqualsIgnoreCase(cmd, "/exit") && !EqualsIgnoreCase(cmd, "/help");
  }

  /** `TryHandleCommand(input, agent, out shouldExit)`: whether the input was
      a command, and whether it asks to leave; `/save` and `/load` act on the
      agent's history, every other input leaves the agent alone. */
  method TryHandleCommand(input: string, agent: Agent.UniversalAgent) returns (handled: bool, shouldExit: bool)
    modifies agent
    ensures handled <==> !Parse(input).NotCommand?
    ensures shouldExit <==> Parse(input).Exit?
    ensures agent.Tools() == old(agent.Tools()) && agent.modules == old(agent.modules)
            && agent.instruction == old(agent.instruction)
    ensures Parse(input).Save? ==>
              agent.saved == old(agent.saved)[Parse(input).path := Some(old(agent.history))]
              && agent.history == old(agent.history)
    ensures Parse(input).Load? ==>
              agent.saved == old(agent.saved)
              && var path := Parse(input).path;
                 agent.history == if path in agent.saved && agent.saved[path].Some? then agent.saved[path].value
                                  else old(agent.history)
    ensures !Parse(input).Save? && !Parse(input).Load? ==>
              agent.saved == old(agent.saved) && agent.history == old(agent.history)
  {
    var command := Parse(input);
    handled := !command.NotCommand?;
    shouldExit := command.Exit?;
    if command.Save? {
      var _ := agent.SaveChatHistory(command.path);
    } else if command.Load? {
      var _ := agent.LoadChatHistory(command.path);
    }
  }
}
