/**
 * The parts of the SSH client interface the drivers use. The client itself
 * (x/crypto/ssh sessions, dialing, terminals) is outside the model: a client
 * is the oracle answering `Output(command)`.
 */
module Remote {
  import opened Errors

  /** What `client.Output(command)` returned. `("", nil)` is a possible answer
      too: ssh/client.go returns it when the session cannot be set up. */
  datatype CommandResult = CommandResult(output: string, err: Option<Error>)

  /** An `ssh.Client`, seen through `Output`. */
  datatype Client = Client(output: string -> CommandResult)

  /** `ssh.Auth`: passwords and key files to try. */
  datatype Auth = Auth(passwords: seq<string>, keys: seq<string>)

  /** The arguments of `ssh.NewClient(user, host, port, &auth)`. */
  datatype SshTarget = SshTarget(user: string, host: string, port: int, auth: Auth)
}
