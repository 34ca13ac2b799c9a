/** The status vocabulary of the engine layer and `cmdStatus`, the carrier
    that binds a status to an exit code and a trimmed message. */
module StatusCodes {
  import Text

  /** The outcome kinds named by the engine layer and the ecryptfs backend. */
  datatype Status =
    | Success
    | VolumeCreatedSuccessfully
    | CryfsBadPassword
    | SshfsBadPassword
    | EncfsBadPassword
    | GocryptfsBadPassword
    | EcryptfsBadPassword
    | EcryptfsIllegalPath
    | EcryptfsBadExePermissions
    | SecurefsBadPassword
    | SshfsNotFound
    | BackEndDoesNotSupportCustomConfigPath
    | CryfsNotFound
    | CryfsMigrateFileSystem
    | EncfsNotFound
    | EcryptfsSimpleNotFound
    | GocryptfsNotFound
    | SecurefsNotFound
    | FailedToCreateMountPoint
    | FailedToLoadWinfsp
    | FailedToStartPolkit
    | FailedToUnMount
    | Unknown
    | BackendFail

  const Preamble := "Failed To Complete The Task And Below Log was Generated By The Backend.\n"
  const Separator := "\n----------------------------------------\n"

  /** The statuses the rendering switch does not list: backendFail, and two
      that the switch omits and that therefore reach the code after it. */
  predicate RendersLog(s: Status)
  {
    s == BackendFail || s == FailedToStartPolkit || s == FailedToUnMount
  }

  /** The fixed text of each status the rendering switch lists. */
  function FixedText(s: Status): string
    requires !RendersLog(s)
  {
    match s
    case Success => "Success"
    case VolumeCreatedSuccessfully => "Volume Created Successfully."
    case CryfsBadPassword => "Failed To Unlock A Cryfs Volume.\nWrong Password Entered."
    case SshfsBadPassword => "Failed To Connect To The Remote Computer.\nWrong Password Entered."
    case EncfsBadPassword => "Failed To Unlock An Encfs Volume.\nWrong Password Entered."
    case GocryptfsBadPassword => "Failed To Unlock A Gocryptfs Volume.\nWrong Password Entered."
    case EcryptfsBadPassword => "Failed To Unlock An Ecryptfs Volume.\nWrong Password Entered."
    case EcryptfsIllegalPath =>
      "A Space Character Is Not Allowed In Paths When Using Ecryptfs Backend And Polkit."
    case EcryptfsBadExePermissions =>
      "This Backend Requires Root's Privileges And An attempt To Acquire Them Has Failed."
    case SecurefsBadPassword => "Failed To Unlock A Securefs Volume.\nWrong Password Entered."
    case SshfsNotFound => "Failed To Complete The Request.\nSshfs Executable Could Not Be Found."
    case BackEndDoesNotSupportCustomConfigPath =>
      "Backend Does Not Support Custom Configuration File Path."
    case CryfsNotFound => "Failed To Complete The Request.\nCryfs Executable Could Not Be Found."
    case CryfsMigrateFileSystem =>
      "This Volume Of Cryfs Needs To Be Upgraded To Work With The Version Of Cryfs You Are Using.\n\n"
        + "The Upgrade is IRREVERSIBLE And The Volume Will No Longer Work With Older Versions of Cryfs.\n\n"
        + "To Do The Upgrade, Check The \"Upgrade File System\" Option And Unlock The Volume Again."
    case EncfsNotFound => "Failed To Complete The Request.\nEncfs Executable Could Not Be Found."
    case EcryptfsSimpleNotFound =>
      "Failed To Complete The Request.\nEcryptfs-simple Executable Could Not Be Found."
    case GocryptfsNotFound => "Failed To Complete The Request.\nGocryptfs Executable Could Not Be Found."
    case SecurefsNotFound => "Failed To Complete The Request.\nSecurefs Executable Could Not Be Found."
    case FailedToCreateMountPoint => "Failed To Create Mount Point."
    case FailedToLoadWinfsp =>
      "Backend Could Not Load WinFsp. Please Make Sure You Have WinFsp Properly Installed"
    case Unknown => "Failed To Unlock The Volume.\nNot Supported Volume Encountered."
    case BackendFail | FailedToStartPolkit | FailedToUnMount => assert false; ""
  }

  /** The user-facing text of a status carrying `message`. */
  function Describe(s: Status, message: string): (r: string)
    ensures !RendersLog(s) ==> r == FixedText(s)
    ensures RendersLog(s) ==>
      |r| == |Preamble| + |Separator| + |message| && r[..|Preamble|] == Preamble
      && r[|Preamble|..|Preamble + Separator|] == Separator
      && r[|Preamble + Separator|..] == message
  {
    if RendersLog(s) then Preamble + Separator + message else FixedText(s)
  }

  /** A status with fixed text renders the same whatever its message; one
      without renders the preamble, the separator line and the message, so
      distinct messages render distinctly and the message can be read back. */
  lemma DescribeProperties(s: Status, m1: string, m2: string)
    ensures !RendersLog(s) ==> Describe(s, m1) == Describe(s, m2) == FixedText(s)
    ensures RendersLog(s) ==>
      var r := Describe(s, m1);
      r == Preamble + Separator + m1 && r[|Preamble + Separator|..] == m1
    ensures RendersLog(s) && m1 != m2 ==> Describe(s, m1) != Describe(s, m2)
  {
  }

  /** `cmdStatus`: a status, an exit code and a message kept free of
      trailing newlines. */
  class CmdStatus {
    var status: Status
    var exitCode: int
    var message: string

    ghost predicate Valid()
      reads this
    {
      !Text.EndsWithNewline(message)
    }

    constructor (s: Status, c: int, e: string)
      ensures Valid()
      ensures status == s && exitCode == c && message == Text.TrimTrailingNewlines(e)
    {
      status := s;
      exitCode := c;
      message := e;
      new;
      SetMessage(e);
    }

    /** Stores `e` and then cuts newlines off its end one at a time. */
    method SetMessage(e: string)
      modifies this`message
      ensures Valid()
      ensures message == Text.TrimTrailingNewlines(e)
    {
      message := e;
      while true
        invariant Text.TrimTrailingNewlines(message) == Text.TrimTrailingNewlines(e)
        decreases |message|
      {
        if Text.EndsWithNewline(message) {
          message := message[..|message| - 1];
        } else {
          break;
        }
      }
    }

    /** `operator==`: compares the status only. */
    function Is(s: Status): (r: bool)
      reads this
      ensures r <==> status == s
    {
      status == s
    }

    /** `operator!=`: the negation of `operator==`. */
    function IsNot(s: Status): (r: bool)
      reads this
      ensures r <==> !Is(s)
    {
      status != s
    }

    /** `toString`: a log rendering ends in the stored message, so never in
        a newline unless the message is empty. */
    function ToString(): (r: string)
      reads this
      requires Valid()
      ensures !RendersLog(status) ==> r == FixedText(status)
      ensures RendersLog(status) ==> r == Preamble + Separator + message
      ensures RendersLog(status) && message != "" ==> !Text.EndsWithNewline(r)
    {
      Describe(status, message)
    }
  }

  /** Two carriers of the same status are interchangeable for comparisons,
      whatever their messages and exit codes; carriers of different
      statuses never compare equal to the same status. */
  lemma EqualityIgnoresPayload(a: CmdStatus, b: CmdStatus, s: Status)
    ensures a.status == b.status ==> (a.Is(s) <==> b.Is(s)) && (a.IsNot(s) <==> b.IsNot(s))
    ensures a.status != b.status ==> !(a.Is(s) && b.Is(s))
  {
  }
}
