/** The command templates: the only place where an argument vector is built. */
module CommandTemplates {
  import opened Prelude
  import opened Terminal

  datatype PackageManager = WINGET | APT | DNF | PACMAN | BREW | PIP | TERMUX_PKG | UNKNOWN

  predicate IsAlphanumeric(c: char) {
    'A' <= c <= 'Z' || 'a' <= c <= 'z' || '0' <= c <= '9'
  }

  predicate IsPlainWord(s: string, limit: nat) {
    && 0 < |s| <= limit && IsAlphanumeric(s[0])
    && forall i :: 0 < i < |s| ==> IsAlphanumeric(s[i]) || s[i] in "._+-"
  }

  /** `^[A-Za-z0-9][A-Za-z0-9._+-]{0,limit - 1}$`; the dollar sign also matches before a final line feed. */
  predicate MatchesWord(s: string, limit: nat) {
    IsPlainWord(s, limit) || (s != "" && s[|s| - 1] == '\n' && IsPlainWord(s[..|s| - 1], limit))
  }

  const NAME_LIMIT: nat := 128
  const VERSION_LIMIT: nat := 64

  /** `None` means that the template refuses its input by raising. */
  function InstallCommand(interpreter: string, manager: PackageManager, name: string, version: Option<string>)
    : Option<seq<string>>
  {
    var pinned := version.Some? && version.value != "";
    if !MatchesWord(name, NAME_LIMIT) || (pinned && !MatchesWord(version.value, VERSION_LIMIT)) then None
    else
      var target := (separator: string) => if pinned then name + separator + version.value else name;
      match manager
      case WINGET =>
        Some(["winget", "install", "--id", name, "--exact", "--silent", "--accept-package-agreements",
              "--accept-source-agreements"] + if pinned then ["--version", version.value] else [])
      case APT => Some(["apt-get", "install", "-y", target("=")])
      case DNF => Some(["dnf", "install", "-y", target("-")])
      case PACMAN => Some(["pacman", "-S", "--noconfirm", name])
      case BREW => Some(["brew", "install", target("@")])
      case PIP => Some([interpreter, "-m", "pip", "install", target("==")])
      case TERMUX_PKG => Some(["pkg", "install", "-y", name])
      case UNKNOWN => None
  }

  function VerificationCommand(interpreter: string, manager: PackageManager, name: string, entrypoint: Option<string>)
    : Option<seq<string>>
  {
    if entrypoint.Some? && entrypoint.value != "" then
      if MatchesWord(entrypoint.value, NAME_LIMIT) then Some([entrypoint.value, "--version"]) else None
    else if !MatchesWord(name, NAME_LIMIT) then None
    else
      match manager
      case PIP => Some([interpreter, "-m", "pip", "show", name])
      case BREW => Some(["brew", "list", "--versions", name])
      case WINGET => Some(["winget", "list", "--id", name])
      case APT => Some(["dpkg-query", "-W", "-f=${Version}", name])
      case DNF => Some(["rpm", "-q", name])
      case PACMAN => Some(["pacman", "-Q", name])
      case TERMUX_PKG => Some(["pkg", "list-installed", name])
      case UNKNOWN => None
  }

  function DiagnosticCommand(interpreter: string): seq<string> {
    [interpreter, "-c", "print('cyberai-terminal-engine-ok')"]
  }

  /** A text an argument vector may hold without being taken for an option, apart from what the templates write. */
  predicate IsOperand(s: string) {
    s != "" && IsAlphanumeric(s[0])
  }

  lemma WordIsOperand(s: string, limit: nat)
    requires MatchesWord(s, limit)
    ensures IsOperand(s) && |s| <= limit + 1
  {
    if !IsPlainWord(s, limit) {
      assert s[..|s| - 1][0] == s[0];
    }
  }

  /** Whatever a template builds passes the engine's own argument check, and the text taken from the tool never reads as
      an option. */
  lemma InstallCommandIsValid(interpreter: string, manager: PackageManager, name: string, version: Option<string>)
    requires |interpreter| <= MAX_ARG_LENGTH
    ensures var c := InstallCommand(interpreter, manager, name, version);
            c.Some? ==>
              && ValidArgv(c.value) && IsOperand(name)
              && (version.Some? && version.value != "" ==> IsOperand(version.value))
  {
    hide MatchesWord, IsOperand;
    if InstallCommand(interpreter, manager, name, version).Some? {
      WordIsOperand(name, NAME_LIMIT);
      if version.Some? && version.value != "" {
        WordIsOperand(version.value, VERSION_LIMIT);
      }
    }
  }

  lemma VerificationCommandIsValid(interpreter: string, manager: PackageManager, name: string,
                                   entrypoint: Option<string>)
    requires |interpreter| <= MAX_ARG_LENGTH
    ensures var c := VerificationCommand(interpreter, manager, name, entrypoint);
            c.Some? ==> ValidArgv(c.value)
  {
    hide MatchesWord, IsOperand;
    if VerificationCommand(interpreter, manager, name, entrypoint).Some? {
      if entrypoint.Some? && entrypoint.value != "" {
        WordIsOperand(entrypoint.value, NAME_LIMIT);
      } else {
        WordIsOperand(name, NAME_LIMIT);
      }
    }
  }
}
