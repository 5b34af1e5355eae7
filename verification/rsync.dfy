/**
 * `upload_with_rsync` of streams/upload_rsync.py: the precondition checks,
 * the rsync argument list, and the bounded retry loop. Each attempt's
 * outcome is an oracle indexed by the attempt number; the pause between
 * attempts is not modelled.
 */
module Rsync {
  import opened Text

  /** What one `subprocess.run` of rsync yields: an exit code with its error
      output, a timeout, or any other exception with its text. */
  datatype Attempt = Exit(code: int, stderr: string) | TimedOut | Raised(text: string)

  /** The returned pair `(ok, message)` and the number of attempts made. */
  datatype Upload = Upload(ok: bool, message: string, attempts: nat)

  /** An attempt after which the loop tries again, unless it was the last one. */
  predicate Retryable(a: Attempt)
  {
    (a.Exit? && a.code != 0) || a.TimedOut?
  }

  predicate Succeeded(a: Attempt)
  {
    a.Exit? && a.code == 0
  }

  const RsyncMissing: string := "rsync n'est pas installé sur le système"
  const TimeoutAtLast: string := "Timeout après toutes les tentatives"

  function LocalMissing(localFile: string): string
  {
    "Fichier local non trouvé: " + localFile
  }

  function ExitMessage(code: int, stderr: string): string
  {
    "Erreur rsync (code " + IntToString(code) + "): " + stderr
  }

  function SuccessMessage(attempt: nat): string
  {
    "Upload réussi (tentative " + NatToString(attempt) + ")"
  }

  function UnexpectedMessage(text: string): string
  {
    "Erreur inattendue: " + text
  }

  function GaveUpMessage(maxRetries: int): string
  {
    "Échec après " + IntToString(maxRetries) + " tentatives"
  }

  /** `user@host:path`. */
  function Destination(user: string, host: string, path: string): string
  {
    user + "@" + host + ":" + path
  }

  /** The rsync command: archive mode with compression, resumable in-place
      transfer, the I/O timeout, then the local file and the destination last. */
  function RsyncArgs(localFile: string, user: string, host: string, path: string, timeout: int): (r: seq<string>)
    ensures |r| == 8 && r[0] == "rsync"
    ensures r[|r| - 2] == localFile && r[|r| - 1] == Destination(user, host, path)
    ensures "--timeout=" + IntToString(timeout) in r
    ensures "--partial" in r && "--inplace" in r
    ensures "-avz" in r && "--progress" in r
  {
    ["rsync", "-avz", "--progress", "--partial", "--inplace", "--timeout=" + IntToString(timeout),
     localFile, Destination(user, host, path)]
  }

  /**
   * `upload_with_rsync`. A missing local file or rsync binary fails before
   * any attempt. Otherwise at most `maxRetries` attempts are made; every
   * attempt before the last was a nonzero exit or a timeout; the first
   * exit code 0 succeeds at once, any other exception fails at once, and
   * the last retryable attempt reports its own error. The "gave up"
   * message is reached only when no attempt is allowed at all.
   */
  method UploadWithRsync(localExists: bool, rsyncInstalled: bool, localFile: string, maxRetries: int,
                         outcome: nat -> Attempt) returns (r: Upload)
    ensures !localExists ==> r == Upload(false, LocalMissing(localFile), 0)
    ensures localExists && !rsyncInstalled ==> r == Upload(false, RsyncMissing, 0)
    ensures localExists && rsyncInstalled && maxRetries < 1 ==> r == Upload(false, GaveUpMessage(maxRetries), 0)
    ensures localExists && rsyncInstalled && maxRetries >= 1 ==> 1 <= r.attempts <= maxRetries
    ensures forall j :: 1 <= j < r.attempts ==> Retryable(outcome(j))
    ensures r.ok <==> r.attempts >= 1 && Succeeded(outcome(r.attempts))
    ensures r.ok ==> r.message == SuccessMessage(r.attempts)
    ensures r.attempts >= 1 && outcome(r.attempts).Raised? ==>
      !r.ok && r.message == UnexpectedMessage(outcome(r.attempts).text)
    ensures r.attempts >= 1 && Retryable(outcome(r.attempts)) ==> r.attempts == maxRetries && !r.ok
    ensures r.attempts >= 1 && outcome(r.attempts).TimedOut? ==> r.message == TimeoutAtLast
    ensures r.attempts >= 1 && outcome(r.attempts).Exit? && outcome(r.attempts).code != 0 ==>
      r.message == ExitMessage(outcome(r.attempts).code, outcome(r.attempts).stderr)
  {
    if !localExists {
      return Upload(false, LocalMissing(localFile), 0);
    }
    if !rsyncInstalled {
      return Upload(false, RsyncMissing, 0);
    }
    var attempt := 1;
    while attempt <= maxRetries
      invariant 1 <= attempt
      invariant maxRetries >= 1 ==> attempt <= maxRetries
      invariant forall j :: 1 <= j < attempt ==> Retryable(outcome(j))
      decreases maxRetries - attempt
    {
      match outcome(attempt) {
      case Exit(code, stderr) =>
        if code == 0 {
          return Upload(true, SuccessMessage(attempt), attempt);
        } else if attempt >= maxRetries {
          return Upload(false, ExitMessage(code, stderr), attempt);
        }
      case TimedOut =>
        if attempt >= maxRetries {
          return Upload(false, TimeoutAtLast, attempt);
        }
      case Raised(text) =>
        return Upload(false, UnexpectedMessage(text), attempt);
      }
      attempt := attempt + 1;
    }
    return Upload(false, GaveUpMessage(maxRetries), 0);
  }
}
