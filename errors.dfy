/** The exceptions the plugin's goals end with. */
module Errors {

  /** The exception a Mojo exception wraps, when it wraps one. */
  datatype Cause =
    | NoCause
    | IOFailure              // java.io.IOException
    | PackagerFailure        // the JavaFX packager's PackagerException
    | InstallationFailure    // Maven's ArtifactInstallationException

  /** Everything a goal can throw. */
  datatype Failure =
    | MojoExecution(message: string, cause: Cause)   // MojoExecutionException
    | MojoFailure(message: string, cause: Cause)     // MojoFailureException
    | NullPointer                                    // NullPointerException
    | IllegalArgument(name: string)                  // Enum.valueOf on an unknown name
    | InvocationFailed(goal: string)                 // whatever an invoked Maven goal throws

  /** The end of a goal's `execute`: it returns, or it throws. */
  datatype Status = Done | Failed(failure: Failure)
}
