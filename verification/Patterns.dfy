/** Matchers for the fixed regular expressions of the fixture schema. */
module Patterns {
  import opened Decimal

  datatype Pattern =
    | WorkspaceId   // ^w\d+$
    | TabId         // ^w\d+:t[A-Z0-9]+$
    | PaneId        // ^w\d+:p[A-Z0-9]+$
    | Label         // ^(space-[a-z]+|space-x-[a-z]+|tab-\d+)$
    | ProjectPath   // ^/Users/user/projects/proj\d+$
    | TerminalId    // ^term_\d{12}$
    | SessionUuid   // ^00000000-0000-4000-8000-\d{12}$
    | DecimalCount  // ^\d+$

  const STATUS_WORDS: set<string> := {"working", "blocked", "done", "idle", "unknown", "none"}

  const PROJECT_PREFIX := "/Users/user/projects/proj"
  const TERMINAL_PREFIX := "term_"
  const SESSION_PREFIX := "00000000-0000-4000-8000-"
  const SPACE_PREFIX := "space-"
  const TAB_PREFIX := "tab-"

  predicate Lower(c: char) {
    'a' <= c <= 'z'
  }

  predicate AllLower(s: string) {
    forall i | 0 <= i < |s| :: Lower(s[i])
  }

  predicate Suffix(c: char) {
    'A' <= c <= 'Z' || IsDigit(c)
  }

  predicate AllSuffix(s: string) {
    forall i | 0 <= i < |s| :: Suffix(s[i])
  }

  predicate Digits(s: string) {
    |s| > 0 && AllDigits(s)
  }

  predicate Prefixed(s: string, prefix: string) {
    |prefix| <= |s| && s[..|prefix|] == prefix
  }

  predicate Scoped(s: string, kind: char) {
    exists i :: 2 <= i < |s| - 2
      && s[0] == 'w' && AllDigits(s[1..i]) && s[i] == ':' && s[i + 1] == kind && AllSuffix(s[i + 2..])
  }

  predicate Matches(p: Pattern, s: string) {
    match p
    case WorkspaceId => |s| > 1 && s[0] == 'w' && AllDigits(s[1..])
    case TabId => Scoped(s, 't')
    case PaneId => Scoped(s, 'p')
    case Label =>
      || (Prefixed(s, SPACE_PREFIX) && |s| > 6 && AllLower(s[6..]))
      || (Prefixed(s, "space-x-") && |s| > 8 && AllLower(s[8..]))
      || (Prefixed(s, TAB_PREFIX) && Digits(s[4..]))
    case ProjectPath => Prefixed(s, PROJECT_PREFIX) && Digits(s[|PROJECT_PREFIX|..])
    case TerminalId =>
      Prefixed(s, TERMINAL_PREFIX) && |s| == |TERMINAL_PREFIX| + 12 && AllDigits(s[|TERMINAL_PREFIX|..])
    case SessionUuid =>
      Prefixed(s, SESSION_PREFIX) && |s| == |SESSION_PREFIX| + 12 && AllDigits(s[|SESSION_PREFIX|..])
    case DecimalCount => Digits(s)
  }
}
