/** Classifying failures and deciding what to do about them. */
module AgentRecovery {
  import opened Prelude
  import opened AgentModels
  import opened Text

  datatype FailureClass =
    | MISSING_DEPENDENCY | MISSING_EXECUTABLE | INCOMPATIBLE_VERSION | UNSUPPORTED_PLATFORM | PERMISSION_ISSUE
    | INVALID_ARGUMENT | CONFIGURATION_ISSUE | NETWORK_CONNECTIVITY | TIMEOUT | TOOL_UNAVAILABLE | UNEXPECTED_OUTPUT
    | POLICY_RESTRICTION | UNKNOWN

  function FailureText(f: FailureClass): string {
    match f
    case MISSING_DEPENDENCY => "missing_dependency"
    case MISSING_EXECUTABLE => "missing_executable"
    case INCOMPATIBLE_VERSION => "incompatible_version"
    case UNSUPPORTED_PLATFORM => "unsupported_platform"
    case PERMISSION_ISSUE => "permission_issue"
    case INVALID_ARGUMENT => "invalid_argument"
    case CONFIGURATION_ISSUE => "configuration_issue"
    case NETWORK_CONNECTIVITY => "network_connectivity"
    case TIMEOUT => "timeout"
    case TOOL_UNAVAILABLE => "tool_unavailable"
    case UNEXPECTED_OUTPUT => "unexpected_output"
    case POLICY_RESTRICTION => "policy_restriction"
    case UNKNOWN => "unknown"
  }

  const STDERR_HINTS: seq<(string, FailureClass)> := [
    ("permission denied", PERMISSION_ISSUE),
    ("not found", MISSING_EXECUTABLE),
    ("no such file", MISSING_EXECUTABLE),
    ("could not resolve", NETWORK_CONNECTIVITY),
    ("network is unreachable", NETWORK_CONNECTIVITY),
    ("connection refused", NETWORK_CONNECTIVITY),
    ("unsupported platform", UNSUPPORTED_PLATFORM),
    ("incompatible", INCOMPATIBLE_VERSION),
    ("invalid argument", INVALID_ARGUMENT),
    ("dependency", MISSING_DEPENDENCY)]

  /** The class of the first hint, in order, that the text contains. */
  function FirstHint(hints: seq<(string, FailureClass)>, text: string): Option<FailureClass> {
    if hints == [] then None
    else if Contains(text, hints[0].0) then Some(hints[0].1)
    else FirstHint(hints[1..], text)
  }

  function Classified(timedOut: bool, policyDenied: bool, exitCode: Option<int>, stderr: Option<string>): FailureClass {
    if policyDenied then POLICY_RESTRICTION
    else if timedOut then TIMEOUT
    else
      match FirstHint(STDERR_HINTS, Lower(if stderr.Some? then stderr.value else ""))
      case Some(f) => f
      case None => if exitCode.Some? && exitCode.value != 0 then UNEXPECTED_OUTPUT else FailureClass.UNKNOWN
  }

  method Classify(timedOut: bool, policyDenied: bool, exitCode: Option<int>, stderr: Option<string>)
    returns (f: FailureClass)
    ensures f == Classified(timedOut, policyDenied, exitCode, stderr)
  {
    if policyDenied {
      return POLICY_RESTRICTION;
    }
    if timedOut {
      return TIMEOUT;
    }
    var text := Lower(if stderr.Some? then stderr.value else "");
    for i := 0 to |STDERR_HINTS|
      invariant FirstHint(STDERR_HINTS, text) == FirstHint(STDERR_HINTS[i..], text)
    {
      if Contains(text, STDERR_HINTS[i].0) {
        return STDERR_HINTS[i].1;
      }
      assert STDERR_HINTS[i..][1..] == STDERR_HINTS[i + 1..];
    }
    if exitCode.Some? && exitCode.value != 0 {
      return UNEXPECTED_OUTPUT;
    }
    return FailureClass.UNKNOWN;
  }

  datatype Strategy = RETRY | ASK | FAIL

  function Signature(key: ActionType, f: FailureClass): string {
    ActionText(key) + ":" + FailureText(f)
  }

  function RetryCount(counts: map<string, int>, key: ActionType): int {
    if ActionText(key) in counts then counts[ActionText(key)] else 0
  }

  predicate NeverRetried(f: FailureClass) {
    f == POLICY_RESTRICTION || f == PERMISSION_ISSUE || f == UNSUPPORTED_PLATFORM
  }

  function Decide(t: Task, maxRetries: int, key: ActionType, f: FailureClass): Strategy {
    if t.lastErrorSignature == Some(Signature(key, f)) then FAIL
    else if NeverRetried(f) then FAIL
    else if RetryCount(t.retryCountByAction, key) >= maxRetries then FAIL
    else if f == MISSING_DEPENDENCY || f == TOOL_UNAVAILABLE then ASK
    else RETRY
  }

  function ParseFailure(s: string): Option<FailureClass> {
    if s == "missing_dependency" then Some(MISSING_DEPENDENCY)
    else if s == "missing_executable" then Some(MISSING_EXECUTABLE)
    else if s == "incompatible_version" then Some(INCOMPATIBLE_VERSION)
    else if s == "unsupported_platform" then Some(UNSUPPORTED_PLATFORM)
    else if s == "permission_issue" then Some(PERMISSION_ISSUE)
    else if s == "invalid_argument" then Some(INVALID_ARGUMENT)
    else if s == "configuration_issue" then Some(CONFIGURATION_ISSUE)
    else if s == "network_connectivity" then Some(NETWORK_CONNECTIVITY)
    else if s == "timeout" then Some(TIMEOUT)
    else if s == "tool_unavailable" then Some(TOOL_UNAVAILABLE)
    else if s == "unexpected_output" then Some(UNEXPECTED_OUTPUT)
    else if s == "policy_restriction" then Some(POLICY_RESTRICTION)
    else if s == "unknown" then Some(FailureClass.UNKNOWN)
    else None
  }

  lemma ParseFailureText(f: FailureClass)
    ensures ParseFailure(FailureText(f)) == Some(f)
  {
  }

  /** Loop detection never mistakes one failure for another: a signature belongs to one action type and one class. */
  lemma SignatureInjective(a: ActionType, f: FailureClass, b: ActionType, g: FailureClass)
    ensures Signature(a, f) == Signature(b, g) <==> a == b && f == g
  {
    hide ActionText, FailureText, ParseAction, ParseFailure;
    if Signature(a, f) == Signature(b, g) {
      NoColon(a);
      NoColon(b);
      var s, i, j := Signature(a, f), |ActionText(a)|, |ActionText(b)|;
      assert s[i] == ':' && s[j] == ':';
      assert i == j;
      assert ActionText(a) == s[..i] && ActionText(b) == s[..j];
      assert FailureText(f) == s[i + 1..] && FailureText(g) == s[j + 1..];
      ActionTextInjective(a, b);
      ParseFailureText(f);
      ParseFailureText(g);
    }
  }
}
