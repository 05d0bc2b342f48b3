/** What an argument vector says, read by the grammar of the program it calls and without looking at how it was built;
    and that the templates say what they should. */
module CommandReading {
  import opened Prelude
  import opened CommandTemplates

  /** `Installs` and `InstallsJoined` change the system; the joined form is dnf's, whose name and version share a
      word. */
  datatype Reading =
    | Installs(manager: PackageManager, package: string, version: Option<string>)
    | InstallsJoined(manager: PackageManager, word: string)
    | Queries(manager: PackageManager, package: string)
    | AsksVersion(program: string)
    | Diagnostic
    | Unreadable

  /** The word up to the first `c`, and what follows it. */
  function Split(word: string, c: char): (string, Option<string>) {
    if word == "" then ("", None)
    else if word[0] == c then ("", Some(word[1..]))
    else
      var rest := Split(word[1..], c);
      ([word[0]] + rest.0, rest.1)
  }

  function Pinned(manager: PackageManager, word: string, c: char): Reading {
    var parts := Split(word, c);
    Installs(manager, parts.0, parts.1)
  }

  /** pip separates by two equals signs. */
  function PipPinned(word: string): Reading {
    var parts := Split(word, '=');
    if parts.1.None? then Installs(PIP, parts.0, None)
    else if parts.1.value != "" && parts.1.value[0] == '=' then Installs(PIP, parts.0, Some(parts.1.value[1..]))
    else Unreadable
  }

  /** winget's way of asking nothing: the exact package, silently, all agreements accepted. */
  predicate Consents(a: seq<string>) {
    && |a| == 4 && a[0] == "--exact" && a[1] == "--silent"
    && a[2] == "--accept-package-agreements" && a[3] == "--accept-source-agreements"
  }

  predicate Begins(a: seq<string>, x: string, y: string, z: string) {
    |a| >= 3 && a[0] == x && a[1] == y && a[2] == z
  }

  function ReadTwo(a: seq<string>): Reading
    requires |a| == 2
  {
    if a[1] == "--version" then AsksVersion(a[0]) else Unreadable
  }

  function ReadThree(interpreter: string, a: seq<string>): Reading
    requires |a| == 3
  {
    if a[0] == "brew" && a[1] == "install" then Pinned(BREW, a[2], '@')
    else if a[0] == "rpm" && a[1] == "-q" then Queries(DNF, a[2])
    else if a[0] == "pacman" && a[1] == "-Q" then Queries(PACMAN, a[2])
    else if a[0] == "pkg" && a[1] == "list-installed" then Queries(TERMUX_PKG, a[2])
    else if Begins(a, interpreter, "-c", "print('cyberai-terminal-engine-ok')") then Diagnostic
    else Unreadable
  }

  function ReadFour(a: seq<string>): Reading
    requires |a| == 4
  {
    if Begins(a, "apt-get", "install", "-y") then Pinned(APT, a[3], '=')
    else if Begins(a, "dnf", "install", "-y") then InstallsJoined(DNF, a[3])
    else if Begins(a, "pacman", "-S", "--noconfirm") then Installs(PACMAN, a[3], None)
    else if Begins(a, "pkg", "install", "-y") then Installs(TERMUX_PKG, a[3], None)
    else if Begins(a, "brew", "list", "--versions") then Queries(BREW, a[3])
    else if Begins(a, "winget", "list", "--id") then Queries(WINGET, a[3])
    else if Begins(a, "dpkg-query", "-W", "-f=${Version}") then Queries(APT, a[3])
    else Unreadable
  }

  function ReadFive(interpreter: string, a: seq<string>): Reading
    requires |a| == 5
  {
    if !Begins(a, interpreter, "-m", "pip") then Unreadable
    else if a[3] == "install" then PipPinned(a[4])
    else if a[3] == "show" then Queries(PIP, a[4])
    else Unreadable
  }

  function ReadWinget(a: seq<string>): Reading
    requires |a| >= 8
  {
    if !Begins(a, "winget", "install", "--id") || !Consents(a[4..8]) then Unreadable
    else if |a| == 8 then Installs(WINGET, a[3], None)
    else if |a| == 10 && a[8] == "--version" then Installs(WINGET, a[3], Some(a[9]))
    else Unreadable
  }

  function Read(interpreter: string, a: seq<string>): Reading {
    if |a| == 2 then ReadTwo(a)
    else if |a| == 3 then ReadThree(interpreter, a)
    else if |a| == 4 then ReadFour(a)
    else if |a| == 5 then ReadFive(interpreter, a)
    else if |a| >= 8 then ReadWinget(a)
    else Unreadable
  }

  // --- The texts the templates accept ------------------------------------------------------------------------------

  /** Letters, digits, full stop, underscore, plus and hyphen. */
  predicate IsNameChar(c: char) {
    || 'a' <= c <= 'z' || 'A' <= c <= 'Z' || '0' <= c <= '9'
    || c == '.' || c == '_' || c == '+' || c == '-'
  }

  /** 1 to `limit` such characters, the first a letter or digit; one line feed may follow, since the pattern's dollar
      sign lets it pass. */
  predicate IsName(s: string, limit: nat) {
    exists n :: 1 <= n <= limit && NamePart(s, limit, n)
  }

  predicate NamePart(s: string, limit: nat, n: int) {
    && 1 <= n <= limit && |s| - 1 <= n <= |s| && (n < |s| ==> s[n] == '\n')
    && s[0] !in {'.', '_', '+', '-'} && forall i :: 0 <= i < n ==> IsNameChar(s[i])
  }

  lemma NameCharsExactly()
    ensures forall c :: IsNameChar(c) <==> IsAlphanumeric(c) || c in "._+-"
  {
    assert "._+-"[0] == '.' && "._+-"[1] == '_' && "._+-"[2] == '+' && "._+-"[3] == '-';
  }

  lemma PlainExactly(s: string, limit: nat)
    ensures IsPlainWord(s, limit) <==>
            && 1 <= |s| <= limit && s[0] !in {'.', '_', '+', '-'} && forall i :: 0 <= i < |s| ==> IsNameChar(s[i])
  {
    hide IsNameChar, IsAlphanumeric;
    NameCharsExactly();
    if s != "" {
      FirstChars(s[0]);
    }
  }

  lemma FirstChars(c: char)
    ensures IsAlphanumeric(c) <==> IsNameChar(c) && c !in {'.', '_', '+', '-'}
  {
  }

  lemma PartIs(s: string, limit: nat, n: int)
    requires NamePart(s, limit, n)
    ensures n == |s| || (n == |s| - 1 && s[n] == '\n')
    ensures 1 <= n <= limit && s[0] !in {'.', '_', '+', '-'} && forall i :: 0 <= i < n ==> IsNameChar(s[i])
  {
  }

  lemma NamesExactly(s: string, limit: nat)
    ensures MatchesWord(s, limit) <==> IsName(s, limit)
  {
    hide IsPlainWord, IsNameChar;
    PlainExactly(s, limit);
    if s != "" {
      var init := s[..|s| - 1];
      PlainExactly(init, limit);
      assert forall i :: 0 <= i < |init| ==> init[i] == s[i];
      if MatchesWord(s, limit) {
        var n := if IsPlainWord(s, limit) then |s| else |s| - 1;
        assert NamePart(s, limit, n);
      }
      if IsName(s, limit) {
        var n :| 1 <= n <= limit && NamePart(s, limit, n);
        PartIs(s, limit, n);
      }
    }
  }

  /** No character of an accepted text separates a name from a version. */
  lemma NamesHoldNoSeparator(s: string, limit: nat)
    requires IsName(s, limit)
    ensures s != "" && forall i :: 0 <= i < |s| ==> s[i] != '=' && s[i] != '@'
  {
  }

  lemma {:induction false} SplitJoined(s: string, c: char, rest: string)
    requires forall i :: 0 <= i < |s| ==> s[i] != c
    ensures Split(s + [c] + rest, c) == (s, Some(rest))
    ensures Split(s, c) == (s, None)
  {
    if s == "" {
      assert (s + [c] + rest)[0] == c && (s + [c] + rest)[1..] == rest;
    } else {
      var all := s + [c] + rest;
      assert all[0] == s[0] && all[1..] == s[1..] + [c] + rest;
      SplitJoined(s[1..], c, rest);
      assert Split(all, c) == ([s[0]] + s[1..], Some(rest));
      assert [s[0]] + s[1..] == s;
    }
  }

  // --- What install commands say -----------------------------------------------------------------------------------

  /** A version was asked for. */
  predicate Asked(version: Option<string>) {
    version.Some? && version.value != ""
  }

  predicate Accepted(name: string, version: Option<string>) {
    IsName(name, 128) && (Asked(version) ==> IsName(version.value, 64))
  }

  /** The reading an install command should have: exactly this package, at the version asked for where the manager takes
      one. */
  function Intended(manager: PackageManager, name: string, version: Option<string>): Reading {
    if manager == DNF then InstallsJoined(DNF, if Asked(version) then name + "-" + version.value else name)
    else if manager == PACMAN || manager == TERMUX_PKG then Installs(manager, name, None)
    else Installs(manager, name, if Asked(version) then version else None)
  }

  lemma SplittersRead(name: string, version: Option<string>)
    requires Accepted(name, version)
    ensures Pinned(APT, if Asked(version) then name + "=" + version.value else name, '=') ==
        Intended(APT, name, version)
    ensures Pinned(BREW, if Asked(version) then name + "@" + version.value else name, '@') ==
        Intended(BREW, name, version)
    ensures PipPinned(if Asked(version) then name + "==" + version.value else name) == Intended(PIP, name, version)
  {
    hide IsName, Split;
    NamesHoldNoSeparator(name, 128);
    var v := if Asked(version) then version.value else "";
    SplitJoined(name, '=', v);
    SplitJoined(name, '@', v);
    SplitJoined(name, '=', "=" + v);
    assert name + "==" + v == name + ['='] + ("=" + v);
    assert ("=" + v)[1..] == v;
  }

  lemma ReadApt(interpreter: string, word: string)
    ensures Read(interpreter, ["apt-get", "install", "-y", word]) == Pinned(APT, word, '=')
  {
    hide Pinned;
  }

  lemma ReadBrew(interpreter: string, word: string)
    ensures Read(interpreter, ["brew", "install", word]) == Pinned(BREW, word, '@')
  {
    hide Pinned;
  }

  lemma ReadPip(interpreter: string, word: string)
    ensures Read(interpreter, [interpreter, "-m", "pip", "install", word]) == PipPinned(word)
  {
    hide PipPinned;
  }

  lemma ReadOthers(interpreter: string, word: string)
    ensures Read(interpreter, ["dnf", "install", "-y", word]) == InstallsJoined(DNF, word)
    ensures Read(interpreter, ["pacman", "-S", "--noconfirm", word]) == Installs(PACMAN, word, None)
    ensures Read(interpreter, ["pkg", "install", "-y", word]) == Installs(TERMUX_PKG, word, None)
  {
    hide Pinned;
    ProgramsDiffer();
  }

  /** The first words tell the programs apart. */
  lemma ProgramsDiffer()
    ensures "dnf" != "pkg" && "pkg" != "rpm" && "pacman" != "winget" && "brew" != "pkg" && "rpm" != "dnf"
    ensures "install" != "show" && "apt-get" != "dpkg-query" && "winget" != "brew"
  {
    assert "dnf"[0] == 'd' && "pkg"[0] == 'p' && "rpm"[0] == 'r' && "pacman"[0] == 'p' && "winget"[0] == 'w';
    assert "install"[0] == 'i' && "show"[0] == 's';
  }

  lemma ReadWingets(interpreter: string, word: string, version: string)
    ensures var a := ["winget", "install", "--id", word, "--exact", "--silent", "--accept-package-agreements",
                      "--accept-source-agreements"];
            && Read(interpreter, a + []) == Installs(WINGET, word, None)
            && Read(interpreter, a + ["--version", version]) == Installs(WINGET, word, Some(version))
  {
  }

  /** Round trip: an install command is built exactly for the managers it knows and the texts it accepts, and it reads
      as the installation of exactly that package, at the version asked for wherever the manager takes one. */
  lemma InstallRoundTrip(interpreter: string, manager: PackageManager, name: string, version: Option<string>)
    ensures var c := InstallCommand(interpreter, manager, name, version);
            && (c.Some? <==> manager != UNKNOWN && Accepted(name, version))
            && (c.Some? ==> Read(interpreter, c.value) == Intended(manager, name, version))
  {
    hide MatchesWord, IsName, Read, Pinned, PipPinned;
    NamesExactly(name, 128);
    if Asked(version) {
      NamesExactly(version.value, 64);
    }
    if InstallCommand(interpreter, manager, name, version).Some? {
      SplittersRead(name, version);
      IntendedRead(interpreter, manager, name, version);
    }
  }

  lemma IntendedRead(interpreter: string, manager: PackageManager, name: string, version: Option<string>)
    requires InstallCommand(interpreter, manager, name, version).Some? && Accepted(name, version)
    ensures Read(interpreter, InstallCommand(interpreter, manager, name, version).value) ==
        Intended(manager, name, version)
  {
    hide MatchesWord, IsName, Read, Pinned, PipPinned;
    var v := if Asked(version) then version.value else "";
    SplittersRead(name, version);
    match manager
    case WINGET => ReadWingets(interpreter, name, v);
    case APT => ReadApt(interpreter, if Asked(version) then name + "=" + v else name);
    case DNF => ReadOthers(interpreter, if Asked(version) then name + "-" + v else name);
    case BREW => ReadBrew(interpreter, if Asked(version) then name + "@" + v else name);
    case PIP => ReadPip(interpreter, if Asked(version) then name + "==" + v else name);
    case _ => ReadOthers(interpreter, name);
  }

  /** For dnf the reading does not tell name and version apart: a package whose own name ends like a version gets the
      same command. */
  lemma DnfIsAmbiguous(interpreter: string)
    ensures InstallCommand(interpreter, DNF, "tool-1", None) == InstallCommand(interpreter, DNF, "tool", Some("1"))
    ensures InstallCommand(interpreter, DNF, "tool-1", None) == Some(["dnf", "install", "-y", "tool-1"])
  {
    assert IsPlainWord("tool-1", 128) && IsPlainWord("tool", 128) && IsPlainWord("1", 64);
    assert "tool" + "-" + "1" == "tool-1";
  }

  // --- What verification commands say ------------------------------------------------------------------------------

  /** A verification command is built exactly for an acceptable entrypoint or, without one, for a known manager and an
      acceptable name; it asks the entrypoint for its version or the manager for that very package, and installs
      nothing. */
  lemma VerificationRoundTrip(interpreter: string, manager: PackageManager, name: string, entrypoint: Option<string>)
    ensures var c := VerificationCommand(interpreter, manager, name, entrypoint);
            if Asked(entrypoint) then
              && (c.Some? <==> IsName(entrypoint.value, 128))
              && (c.Some? ==> Read(interpreter, c.value) == AsksVersion(entrypoint.value))
            else
              && (c.Some? <==> manager != UNKNOWN && IsName(name, 128))
              && (c.Some? ==> Read(interpreter, c.value) == Queries(manager, name))
  {
    hide MatchesWord, IsName, Read;
    NamesExactly(name, 128);
    if Asked(entrypoint) {
      NamesExactly(entrypoint.value, 128);
      ReadsVersion(interpreter, entrypoint.value);
    } else {
      ReadsShortQueries(interpreter, name);
      ReadsQueries(interpreter, name);
      ReadsPipQuery(interpreter, name);
    }
  }

  lemma ReadsVersion(interpreter: string, program: string)
    ensures Read(interpreter, [program, "--version"]) == AsksVersion(program)
  {
  }

  lemma ReadsShortQueries(interpreter: string, name: string)
    ensures Read(interpreter, ["rpm", "-q", name]) == Queries(DNF, name)
    ensures Read(interpreter, ["pacman", "-Q", name]) == Queries(PACMAN, name)
    ensures Read(interpreter, ["pkg", "list-installed", name]) == Queries(TERMUX_PKG, name)
  {
    hide Pinned;
    ProgramsDiffer();
  }

  lemma ReadsQueries(interpreter: string, name: string)
    ensures Read(interpreter, ["brew", "list", "--versions", name]) == Queries(BREW, name)
    ensures Read(interpreter, ["winget", "list", "--id", name]) == Queries(WINGET, name)
    ensures Read(interpreter, ["dpkg-query", "-W", "-f=${Version}", name]) == Queries(APT, name)
  {
    hide Pinned;
    ProgramsDiffer();
  }

  lemma ReadsPipQuery(interpreter: string, name: string)
    ensures Read(interpreter, [interpreter, "-m", "pip", "show", name]) == Queries(PIP, name)
  {
    hide PipPinned;
    ProgramsDiffer();
  }

  lemma DiagnosticReads(interpreter: string)
    ensures Read(interpreter, DiagnosticCommand(interpreter)) == Diagnostic
  {
    assert "-c"[1] == 'c' && "-q"[1] == 'q' && "-Q"[1] == 'Q';
  }
}
