/** The command executor (`run_command`): everything the handlers see of an
    external process is its exit code and its two captured streams. The
    operating system is an oracle from argv to what happened when that argv
    was started. */
module Executor {

  /** An argument vector: the program first, then its arguments. */
  type Argv = seq<string>

  /** What the operating system did with an argv: the process ran to
      completion with an exit code and its decoded output, or it could not
      be run (no such executable, permission denied, undecodable output),
      with the text of the exception that was raised. */
  datatype Spawn = Exited(code: int, out: string, err: string) | SpawnFailed(reason: string)

  type Oracle = Argv -> Spawn

  /** The dictionary `run_command` returns. */
  datatype ExecResult = ExecResult(returncode: int, stdout: string, stderr: string)

  const SpawnFailedCode: int := -1
  const SpawnFailedPrefix: string := "Command execution failed: "

  /** `run_command(cmd)`: never raises. A process that could not be run
      reads as exit code -1 with empty stdout and the reason on stderr, so
      it can never be taken for a success. */
  function RunCommand(os: Oracle, cmd: Argv): (r: ExecResult)
    ensures r.returncode == 0 <==> os(cmd).Exited? && os(cmd).code == 0
    ensures os(cmd).Exited? ==>
      r.returncode == os(cmd).code && r.stdout == os(cmd).out && r.stderr == os(cmd).err
    ensures os(cmd).SpawnFailed? ==>
      r.returncode == SpawnFailedCode && r.stdout == "" &&
      r.stderr == SpawnFailedPrefix + os(cmd).reason
  {
    match os(cmd)
    case Exited(code, out, err) => ExecResult(code, out, err)
    case SpawnFailed(reason) => ExecResult(SpawnFailedCode, "", SpawnFailedPrefix + reason)
  }
}
