/** The result of one job execution, and the line it is displayed as. */
module JobResults {
  import opened Wrappers
  import opened Texts

  /** Rust's `i32`. */
  type I32 = n: int | -0x8000_0000 <= n < 0x8000_0000

  datatype JobResult =
    | Success(exitCode: I32, output: string, errorOutput: string)
    | Failed(exitCode: I32, errorMessage: string, errorOutput: string)
    | Cancelled
    | Timeout

  function Show(r: JobResult): string {
    match r
    case Success(exitCode, _, _) => "SUCCESS (exit_code: " + ShowInt(exitCode) + ")"
    case Failed(exitCode, errorMessage, _) => "FAILED (exit_code: " + ShowInt(exitCode) + "): " + errorMessage
    case Cancelled => "CANCELLED"
    case Timeout => "TIMEOUT"
  }

  /** What the display leaves out is erased; everything else stays. */
  function Displayed(r: JobResult): JobResult {
    match r
    case Success(exitCode, _, _) => Success(exitCode, "", "")
    case Failed(exitCode, errorMessage, _) => Failed(exitCode, errorMessage, "")
    case Cancelled => Cancelled
    case Timeout => Timeout
  }

  /** Reads a displayed line back. */
  function Read(s: string): Option<JobResult> {
    if s == "CANCELLED" then Some(Cancelled)
    else if s == "TIMEOUT" then Some(Timeout)
    else if "SUCCESS" <= s then
      match ReadBetween(s, "SUCCESS (exit_code: ", ")")
      case None => None
      case Some(n) => if IsI32(n) then Some(Success(n, "", "")) else None
    else
      match CutAtFirst(s, "): ")
      case None => None
      case Some((head, message)) =>
        match ReadAfter(head, "FAILED (exit_code: ")
        case None => None
        case Some(n) => if IsI32(n) then Some(Failed(n, message, "")) else None
  }

  predicate IsI32(n: int) { -0x8000_0000 <= n < 0x8000_0000 }

  lemma FailedHead(exitCode: I32)
    ensures !Hides("FAILED (exit_code: " + ShowInt(exitCode), "): ")
  {
    var head := "FAILED (exit_code: " + ShowInt(exitCode);
    ShowIntChars(exitCode);
    assert ')' !in "FAILED (exit_code: ";
    assert ')' !in ShowInt(exitCode);
    assert ')' !in head;
    FreshFirstCharHidesNothing(head, "): ");
  }

  /** Every displayed line reads back to the result it was written for, up to what the display omits. */
  lemma ReadShown(r: JobResult)
    ensures Read(Show(r)) == Some(Displayed(r))
  {
    match r
    case Success(exitCode, _, _) =>
      assert Show(r)[0] == 'S';
      assert "SUCCESS" <= Show(r);
      ReadBetweenShown(exitCode, "SUCCESS (exit_code: ", ")");
    case Failed(exitCode, errorMessage, _) =>
      assert Show(r)[0] == 'F';
      FailedHead(exitCode);
      CutJoined("FAILED (exit_code: " + ShowInt(exitCode), "): ", errorMessage);
      ReadAfterShown(exitCode, "FAILED (exit_code: ");
    case Cancelled =>
    case Timeout =>
      assert Show(r)[0] == 'T';
  }

  /**
   Two results are displayed alike exactly when they differ in the captured output only: the line
   determines the variant, the exit code and the error message.
   */
  lemma ShowDetermines(a: JobResult, b: JobResult)
    ensures Show(a) == Show(b) <==> Displayed(a) == Displayed(b)
  {
    ReadShown(a);
    ReadShown(b);
  }

  /** A line that reads back is the line of what was read. */
  lemma ReadSound(s: string)
    ensures Read(s).Some? ==> Show(Read(s).value) == s
  {
    if Read(s).Some? && s != "CANCELLED" && s != "TIMEOUT" {
      if "SUCCESS" <= s {
        ReadBetweenSound(s, "SUCCESS (exit_code: ", ")");
      } else {
        CutSound(s, "): ");
        var (head, message) := CutAtFirst(s, "): ").value;
        ReadAfterSound(head, "FAILED (exit_code: ");
      }
    }
  }
}
