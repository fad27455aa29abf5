/**
 * The failures the build goal reports. Each constructor stands for one of
 * the exceptions CompileMojo throws; the message text is not modelled.
 */
module Errors {

  /** The external tool a step runs. */
  datatype Tool = CMake | Make

  datatype Error =
    /** The host operating system is Windows. */
    | UnsupportedPlatform
    /** The canonical path of the output directory could not be computed. */
    | OutputPathUnresolved
    /** The canonical path of the source directory could not be computed. */
    | SourcePathUnresolved
    /** The source directory lies (textually) inside the output directory. */
    | SourceInsideOutput
    /** The process could not be started ("Error executing ..."). */
    | CannotExecute(tool: Tool)
    /** The wait for the process was interrupted. */
    | WaitInterrupted(tool: Tool)
    /** The process exited with a non-zero code. */
    | NonZeroExit(tool: Tool, code: int)

  /** Normal return, or the exception a step throws. */
  datatype Outcome = Success | Failure(error: Error)
}
