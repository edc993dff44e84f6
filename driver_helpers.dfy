/**
 * pkg/drivers/helpers.go: running one command over the driver's SSH client,
 * the "SSH is up" probe built on it, and the wait for SSH.
 *
 * `d.GetSSHClientFromDriver()` is an oracle: each call yields a client or an
 * error (`Result<Client>`); `connect(i)` is what the `i`-th probe call got.
 */
module DriverHelpers {
  import opened Errors
  import opened Remote
  import Poller

  const ErrExecutingSSHCommand: Error := Sentinel("error executing SSH command")
  const ErrTooManyRetriesForSSH: Error := Sentinel("too many retries waiting for SSH to be available")

  /** `WaitForSSH` polls `sshAvailableFunc(d)` this many times. */
  const SshAttempts := 1200

  /**
   * `runSSHCommandFromDriver(d, command)`. It fails exactly when the client
   * cannot be had or `Output` fails; a client error is passed on unchanged,
   * an `Output` error is replaced by the package's sentinel and its output
   * dropped; on success `Output`'s text comes back verbatim.
   */
  function RunSSHCommandFromDriver(conn: Result<Client>, command: string): (r: CommandResult)
    ensures r.err.None? <==> conn.Ok? && conn.value.output(command).err.None?
    ensures r.err.Some? ==> r.output == ""
    ensures r.err.None? ==> r.output == conn.value.output(command).output
    ensures conn.Err? ==> r.err == Some(conn.error)
    ensures conn.Ok? && r.err.Some? ==> r.err == Some(ErrExecutingSSHCommand)
  {
    match conn
    case Err(e) => CommandResult("", Some(e))
    case Ok(client) =>
      var out := client.output(command);
      if out.err.Some? then CommandResult("", Some(ErrExecutingSSHCommand)) else out
  }

  /** `sshAvailableFunc(d)()`: SSH counts as available when `exit` runs cleanly. */
  function SshAvailable(conn: Result<Client>): (up: bool)
    ensures up <==> conn.Ok? && conn.value.output("exit").err.None?
  {
    RunSSHCommandFromDriver(conn, "exit").err.None?
  }

  /** One of the first 1200 probe calls finds SSH available. */
  ghost predicate ComesUp(connect: nat -> Result<Client>)
  {
    exists k :: 0 <= k < SshAttempts && SshAvailable(connect(k))
  }

  /**
   * `WaitForSSH(d)`: succeeds exactly when one of the first 1200 probe calls
   * found SSH available; any failure of the poller becomes the package's
   * sentinel, so the poller's own message never reaches the caller.
   */
  method WaitForSSH(connect: nat -> Result<Client>) returns (err: Option<Error>)
    ensures err == None || err == Some(ErrTooManyRetriesForSSH)
    ensures err == None <==> ComesUp(connect)
  {
    var probe := (i: nat) => SshAvailable(connect(i));
    var pollErr, calls, sleeps := Poller.WaitForSpecific(probe, SshAttempts);
    assert forall k :: 0 <= k < SshAttempts ==> probe(k) == SshAvailable(connect(k));
    if pollErr.Some? {
      return Some(ErrTooManyRetriesForSSH);
    }
    return None;
  }
}
