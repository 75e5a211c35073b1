/**
 * The build-script generator (`prepareScript`): turns the job's commands into
 * one bash sub-shell expression that echoes each command in green, runs it and
 * aborts on the first failure, optionally preceded by a clone of the
 * repository into the checkout path.
 */
module BuildScript {
  import opened Jobs
  import opened Strings

  /** The ANSI escape character that starts a colour sequence. */
  const Esc: char := '\U{1B}'

  /** One script line for command `c`: echo it in green, run it, abort on failure. */
  function CommandLine(c: string): string
  {
    "echo '" + [Esc] + "[32m$ " + c + [Esc] + "[0m'; " + c + " || exit 1;"
  }

  /** The script lines, one per command, in input order. */
  function Lines(commands: seq<string>): (r: seq<string>)
    ensures |r| == |commands|
    ensures forall i :: 0 <= i < |commands| ==> r[i] == CommandLine(commands[i])
  {
    seq(|commands|, i requires 0 <= i < |commands| => CommandLine(commands[i]))
  }

  /** The clone step that precedes the commands unless `skipSetup` is set. */
  function Setup(job: Job, checkoutpath: string): string
  {
    if job.skipSetup then ""
    else "cd " + checkoutpath + " && git clone " + job.repository.uri + " -b " + job.repository.branch + " .;"
  }

  /** The whole generated script. */
  function Script(job: Job, checkoutpath: string): string
  {
    "(" + Setup(job, checkoutpath) + Join(Lines(job.commands), '\n') + ")"
  }

  /**
   * `prepareScript`: fills the line array index by index, then joins it with
   * newlines and wraps the setup step and the lines in parentheses.
   */
  method PrepareScript(job: Job, checkoutpath: string) returns (s: string)
    ensures s == Script(job, checkoutpath)
  {
    var script: seq<string> := [];
    var commands := job.commands;
    for idx := 0 to |commands|
      invariant |script| == idx
      invariant forall k :: 0 <= k < idx ==> script[k] == CommandLine(commands[k])
    {
      script := script + ["echo '" + [Esc] + "[32m$ " + commands[idx] + [Esc] + "[0m'; " + commands[idx] + " || exit 1;"];
    }
    var setup := if job.skipSetup then "" else "cd " + checkoutpath + " && git clone " + job.repository.uri + " -b " + job.repository.branch + " .;";
    assert script == Lines(commands);
    s := "(" + setup + Join(script, '\n') + ")";
  }

  /**
   * The script is one parenthesised group; with no setup step and no commands
   * it is exactly `()`.
   */
  lemma ScriptBracketed(job: Job, checkoutpath: string)
    ensures var s := Script(job, checkoutpath);
      |s| >= 2 && s[0] == '(' && s[|s| - 1] == ')'
    ensures job.skipSetup && job.commands == [] ==> Script(job, checkoutpath) == "()"
  {
  }

  /** No character of the strings is a newline. */
  predicate SingleLine(s: string)
  {
    '\n' !in s
  }

  lemma {:induction false} CommandLineSingle(c: string)
    requires SingleLine(c)
    ensures SingleLine(CommandLine(c))
  {
    assert CommandLine(c) == "echo '" + [Esc] + "[32m$ " + c + [Esc] + "[0m'; " + c + " || exit 1;";
  }

  /** The part of a script between its outer parentheses. */
  function Body(s: string): string
    requires |s| >= 2
  {
    s[1..|s| - 1]
  }

  /**
   * Reading the script body back line by line: when no input contains a
   * newline, the body has exactly one line per command, in input order, the
   * i-th being that command's echo/run/abort line; the setup step, when
   * present, sits at the head of the first line with no separator.
   */
  lemma {:induction false} ScriptLines(job: Job, checkoutpath: string)
    requires forall i :: 0 <= i < |job.commands| ==> SingleLine(job.commands[i])
    requires SingleLine(checkoutpath) && SingleLine(job.repository.uri) && SingleLine(job.repository.branch)
    requires job.commands != []
    ensures var s := Script(job, checkoutpath);
      |s| >= 2 &&
      var lines := Split(Body(s), '\n');
      |lines| == |job.commands| &&
      lines[0] == Setup(job, checkoutpath) + CommandLine(job.commands[0]) &&
      forall i :: 1 <= i < |lines| ==> lines[i] == CommandLine(job.commands[i])
  {
    var ls := Lines(job.commands);
    var glued := [Setup(job, checkoutpath) + ls[0]] + ls[1..];
    ScriptBody(job, checkoutpath);
    SplitJoin(glued, '\n');
    assert forall i :: 1 <= i < |glued| ==> glued[i] == ls[i];
  }

  /** The script body is the setup glued to the first line, the lines joined by newlines. */
  lemma ScriptBody(job: Job, checkoutpath: string)
    requires forall i :: 0 <= i < |job.commands| ==> SingleLine(job.commands[i])
    requires SingleLine(checkoutpath) && SingleLine(job.repository.uri) && SingleLine(job.repository.branch)
    requires job.commands != []
    ensures var ls := Lines(job.commands);
      var glued := [Setup(job, checkoutpath) + ls[0]] + ls[1..];
      Free(glued, '\n') && Body(Script(job, checkoutpath)) == Join(glued, '\n')
  {
    var ls := Lines(job.commands);
    var setup := Setup(job, checkoutpath);
    GluedSingle(job, checkoutpath);
    JoinGlue(setup, ls, '\n');
    var inner := setup + Join(ls, '\n');
    assert Script(job, checkoutpath) == "(" + inner + ")";
    BodyOfGroup(inner);
  }

  /** Stripping the outer parentheses of a group gives back its content. */
  lemma BodyOfGroup(inner: string)
    ensures Body("(" + inner + ")") == inner
  {
  }

  /** With newline-free inputs, the setup glued to the first line and the other lines are newline-free. */
  lemma GluedSingle(job: Job, checkoutpath: string)
    requires forall i :: 0 <= i < |job.commands| ==> SingleLine(job.commands[i])
    requires SingleLine(checkoutpath) && SingleLine(job.repository.uri) && SingleLine(job.repository.branch)
    requires job.commands != []
    ensures var ls := Lines(job.commands);
      Free([Setup(job, checkoutpath) + ls[0]] + ls[1..], '\n')
  {
    var ls := Lines(job.commands);
    var setup := Setup(job, checkoutpath);
    LinesSingle(job.commands);
    assert SingleLine(setup);
    var glued := [setup + ls[0]] + ls[1..];
    forall i | 0 <= i < |glued| ensures '\n' !in glued[i] {
      if i > 0 { assert glued[i] == ls[i]; }
    }
  }

  lemma LinesSingle(commands: seq<string>)
    requires forall i :: 0 <= i < |commands| ==> SingleLine(commands[i])
    ensures forall i :: 0 <= i < |commands| ==> SingleLine(Lines(commands)[i])
  {
    forall i | 0 <= i < |commands| ensures SingleLine(Lines(commands)[i]) {
      CommandLineSingle(commands[i]);
    }
  }

  /**
   * With the setup step, the script opens with the clone of the job's
   * repository at its branch into the checkout path, directly after `(`.
   */
  lemma SetupPrefix(job: Job, checkoutpath: string)
    requires !job.skipSetup
    ensures var s := Script(job, checkoutpath);
      var clone := "cd " + checkoutpath + " && git clone " + job.repository.uri + " -b " + job.repository.branch + " .;";
      |s| >= 1 + |clone| && s[1..1 + |clone|] == clone
  {
  }

  /**
   * A one-command script without setup is that command's line in
   * parentheses. It carries the green escape sequences, so it is never the
   * plain `(echo '$ c'; c || exit 1;)` that the repository's test expects
   * for `c` = `echo 'Hello world'`.
   */
  lemma ColouredNotPlain(job: Job)
    requires |job.commands| == 1 && job.skipSetup
    ensures var c := job.commands[0];
      Script(job, "") == "(" + CommandLine(c) + ")" &&
      Script(job, "")[7] == Esc &&
      Script(job, "") != "(echo '$ " + c + "'; " + c + " || exit 1;)"
  {
    var c := job.commands[0];
    assert Lines(job.commands) == [CommandLine(c)];
    assert Join([CommandLine(c)], '\n') == CommandLine(c);
    CommandLineColoured(c);
    var plain := "(echo '$ " + c + "'; " + c + " || exit 1;)";
    assert plain[7] == '$';
  }


  /** Every script line opens its echo with the escape character that starts the green colour. */
  lemma CommandLineColoured(c: string)
    ensures |CommandLine(c)| > 6 && CommandLine(c)[6] == Esc
  {
    var head := "echo '" + [Esc];
    assert |head| == 7 && head[6] == Esc;
  }


}
