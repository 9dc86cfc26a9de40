/**
 * How the in-sandbox helper scripts end. Each script checks that it runs from
 * the command line and has a file argument, and reports failures through
 * errorExit, which writes a message line to stderr and exits with status 20.
 * The renderer captures stderr together with stdout, so a message line is
 * what Score::extractMessage later finds.
 */
module ScriptExit {
  import opened Wrappers
  import opened Text
  import opened ScriptOutput

  datatype Exit = Exit(status: int, stdout: string, stderr: string)

  /** errorExit( $msg ) */
  function ErrorExit(key: string): Exit {
    Exit(20, "", MessagePrefix + key + "\n")
  }

  /** The renderer reads the key of an error exit back, with no parameters. */
  lemma ErrorExitIsRead(key: string)
    requires '\t' !in key && '\n' !in key
    ensures FirstMessage(Split(ErrorExit(key).stderr, '\n')) == Some((key, []))
  {
    MessageLineIsRead("", key, "");
    assert "" + MessagePrefix + key + "\n" + "" == ErrorExit(key).stderr;
  }

  /** The script is not run from the command line. */
  const NotFromCommandLine := Exit(1, "", "")

  /** The file argument is missing. */
  function UsageExit(script: string): Exit {
    Exit(1, "", "Usage: " + script + " <filename>\n")
  }

  const Done := Exit(0, "", "")
}
