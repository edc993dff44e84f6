/**
 * drivers/helpers.go, the older copy of the SSH helpers. Its poller is the
 * same code as the newer package's and is modelled once, in `Poller`; what
 * differs is how errors are reported: they are formatted into text that
 * carries the underlying error instead of being replaced by sentinels.
 */
module LegacyHelpers {
  import opened Errors
  import opened Remote
  import Poller

  const SshAttempts := 1200

  const WaitForSSHPrefix := "Too many retries waiting for SSH to be available. Last error: "

  /** The text of the error `runSSHCommandFromDriver` builds when `Output` fails. */
  function SshCommandErrorText(command: string, cause: Error, output: string): string
  {
    "ssh command error:\ncommand : " + command + "\nerr     : " + Message(cause) + "\noutput  : " + output
  }

  /**
   * `runSSHCommandFromDriver(d, command)`. A client error is passed on
   * unchanged; an `Output` failure becomes an error whose text names the
   * command, the underlying error and the output captured so far; on success
   * `Output`'s text comes back verbatim.
   */
  function RunSSHCommandFromDriver(conn: Result<Client>, command: string): (r: CommandResult)
    ensures r.err.None? <==> conn.Ok? && conn.value.output(command).err.None?
    ensures r.err.Some? ==> r.output == ""
    ensures r.err.None? ==> r.output == conn.value.output(command).output
    ensures conn.Err? ==> r.err == Some(conn.error)
    ensures conn.Ok? && r.err.Some? ==>
      var out := conn.value.output(command);
      && r.err.value.Formatted?
      && Contains(Message(r.err.value), command)
      && Contains(Message(r.err.value), Message(out.err.value))
      && Contains(Message(r.err.value), out.output)
  {
    match conn
    case Err(e) => CommandResult("", Some(e))
    case Ok(client) =>
      var out := client.output(command);
      if out.err.Some? then
        var text := SshCommandErrorText(command, out.err.value, out.output);
        ContainsSpliced("ssh command error:\ncommand : ", command,
                        "\nerr     : " + Message(out.err.value) + "\noutput  : " + out.output);
        assert text == "ssh command error:\ncommand : " + command
                       + ("\nerr     : " + Message(out.err.value) + "\noutput  : " + out.output);
        ContainsSpliced("ssh command error:\ncommand : " + command + "\nerr     : ", Message(out.err.value),
                        "\noutput  : " + out.output);
        assert text == "ssh command error:\ncommand : " + command + "\nerr     : " + Message(out.err.value)
                       + ("\noutput  : " + out.output);
        var head := "ssh command error:\ncommand : " + command + "\nerr     : " + Message(out.err.value) + "\noutput  : ";
        ContainsSpliced(head, out.output, "");
        assert text == head + out.output + "";
        CommandResult("", Some(Formatted(text)))
      else
        out
  }

  /** `sshAvailableFunc(d)()`: SSH counts as available when `exit` runs cleanly. */
  function SshAvailable(conn: Result<Client>): (up: bool)
    ensures up <==> conn.Ok? && conn.value.output("exit").err.None?
  {
    RunSSHCommandFromDriver(conn, "exit").err.None?
  }

  /** `fmt.Sprintf("%d", 1200)` */
  lemma DecimalOfAttempts()
    ensures Decimal(SshAttempts) == "1200"
  {
    assert Digits(1) == "1";
    assert Digits(12) == "12";
    assert Digits(120) == "120";
    assert Digits(1200) == "1200";
  }

  /**
   * `WaitForSSH(d)`: succeeds exactly when one of the first 1200 probe calls
   * found SSH available. On failure the poller's error is wrapped into the
   * message; since the wrapped poller can only run out of attempts, the
   * whole message is fixed.
   */
  method WaitForSSH(connect: nat -> Result<Client>) returns (err: Option<Error>)
    ensures err == None <==> exists k :: 0 <= k < SshAttempts && SshAvailable(connect(k))
    ensures err != None ==>
      && err == Some(Formatted(WaitForSSHPrefix + Message(Poller.ExhaustedError(SshAttempts))))
      && Message(err.value) == WaitForSSHPrefix + "Maximum number of retries (1200) exceeded"
  {
    var probe := (i: nat) => SshAvailable(connect(i));
    var pollErr, calls, sleeps := Poller.WaitForSpecific(probe, SshAttempts);
    assert forall k :: 0 <= k < SshAttempts ==> probe(k) == SshAvailable(connect(k));
    if pollErr.Some? {
      DecimalOfAttempts();
      return Some(Formatted(WaitForSSHPrefix + Message(pollErr.value)));
    }
    return None;
  }
}
