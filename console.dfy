/** What the console commands report to the console kernel. */
module Console {
  /** A command's exit status: Command::SUCCESS (0) or Command::FAILURE (1). */
  datatype ExitCode = Success | Failure {
    function Code(): (n: int)
      ensures n == 0 <==> Success?
      ensures n == 1 <==> Failure?
    {
      if Success? then 0 else 1
    }
  }
}
