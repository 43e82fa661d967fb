/** Tool permission rules of `gateway/permission_plugin.go`: a glob matcher written as
    two-row dynamic programming, and the rule search that lets a denial beat a question. */
module Permission {
  import opened Text
  import opened Outcome

  /** The case mapping of one rune, `unicode.ToLower`. */
  type Lower = char -> char

  // ---- what a glob means -------------------------------------------------

  /** The run of runes one pattern rune may stand for. */
  predicate Stands(token: char, piece: string, lower: Lower) {
    token == '*' || (|piece| == 1 && (token == '?' || lower(token) == lower(piece[0])))
  }

  ghost function Concat(pieces: seq<string>): string {
    if pieces == [] then [] else Concat(pieces[..|pieces| - 1]) + pieces[|pieces| - 1]
  }

  ghost predicate Splits(pattern: string, pieces: seq<string>, value: string, lower: Lower) {
    |pieces| == |pattern| && Concat(pieces) == value
    && forall i :: 0 <= i < |pattern| ==> Stands(pattern[i], pieces[i], lower)
  }

  /** The value can be cut into one piece per pattern rune. */
  ghost predicate Matches(pattern: string, value: string, lower: Lower) {
    exists pieces :: Splits(pattern, pieces, value, lower)
  }

  lemma EmptyPattern(value: string, lower: Lower)
    ensures Matches([], value, lower) <==> value == []
  {
    if value == [] { assert Splits([], [], value, lower); }
  }

  lemma SnocIn(pattern: string, token: char, value: string, cut: nat, lower: Lower)
    requires cut <= |value| && Matches(pattern, value[..cut], lower) && Stands(token, value[cut..], lower)
    ensures Matches(pattern + [token], value, lower)
  {
    var pieces :| Splits(pattern, pieces, value[..cut], lower);
    var more := pieces + [value[cut..]];
    assert more[..|more| - 1] == pieces;
    assert Splits(pattern + [token], more, value, lower);
  }

  lemma SnocOut(pattern: string, token: char, value: string, lower: Lower) returns (cut: nat)
    requires Matches(pattern + [token], value, lower)
    ensures cut <= |value| && Matches(pattern, value[..cut], lower) && Stands(token, value[cut..], lower)
  {
    var more :| Splits(pattern + [token], more, value, lower);
    var pieces := more[..|more| - 1];
    cut := |Concat(pieces)|;
    assert value[..cut] == Concat(pieces) && value[cut..] == more[|more| - 1];
    forall i | 0 <= i < |pattern| ensures Stands(pattern[i], pieces[i], lower) {
      assert (pattern + [token])[i] == pattern[i];
    }
    assert Splits(pattern, pieces, value[..cut], lower);
  }

  /** One cell of the table: a star either stops here or swallows one more rune. */
  lemma StarCell(pattern: string, value: string, lower: Lower)
    ensures Matches(pattern + ['*'], value, lower) <==>
            Matches(pattern, value, lower) || (value != [] && Matches(pattern + ['*'], value[..|value| - 1], lower))
  {
    var n := |value|;
    if Matches(pattern, value, lower) {
      assert value[..n] == value;
      SnocIn(pattern, '*', value, n, lower);
    }
    if value != [] {
      var shorter := value[..n - 1];
      if Matches(pattern + ['*'], shorter, lower) {
        var cut := SnocOut(pattern, '*', shorter, lower);
        assert value[..cut] == shorter[..cut];
        SnocIn(pattern, '*', value, cut, lower);
      }
    }
    if Matches(pattern + ['*'], value, lower) {
      var cut := SnocOut(pattern, '*', value, lower);
      if cut == n {
        assert value[..cut] == value;
      } else {
        assert value[..n - 1][..cut] == value[..cut];
        SnocIn(pattern, '*', value[..n - 1], cut, lower);
      }
    }
  }

  /** Any other pattern rune takes exactly the last rune of the value. */
  lemma RuneCell(pattern: string, token: char, value: string, lower: Lower)
    requires token != '*'
    ensures Matches(pattern + [token], value, lower) <==>
            value != [] && Matches(pattern, value[..|value| - 1], lower)
            && (token == '?' || lower(token) == lower(value[|value| - 1]))
  {
    var n := |value|;
    if Matches(pattern + [token], value, lower) {
      var cut := SnocOut(pattern, token, value, lower);
      assert cut == n - 1;
    }
    if value != [] && Matches(pattern, value[..n - 1], lower) && (token == '?' || lower(token) == lower(value[n - 1])) {
      SnocIn(pattern, token, value, n - 1, lower);
    }
  }

  // ---- the two-row table -------------------------------------------------

  /** `row[j]` says whether the pattern matches the first `j` runes. */
  ghost predicate Row(pattern: string, value: string, row: seq<bool>, lower: Lower) {
    |row| == |value| + 1
    && forall j :: 0 <= j < |row| ==> (row[j] <==> Matches(pattern, value[..j], lower))
  }

  method StarRow(pattern: string, value: string, previous: array<bool>, lower: Lower) returns (current: array<bool>)
    requires Row(pattern, value, previous[..], lower)
    ensures fresh(current) && Row(pattern + ['*'], value, current[..], lower)
  {
    hide Matches;
    current := new bool[|value| + 1](_ => false);
    current[0] := previous[0];
    StarCell(pattern, value[..0], lower);
    assert previous[..][0] == previous[0];
    for index := 1 to |value| + 1
      invariant forall j :: 0 <= j < index ==> (current[j] <==> Matches(pattern + ['*'], value[..j], lower))
    {
      StarCell(pattern, value[..index], lower);
      assert value[..index][..index - 1] == value[..index - 1];
      assert previous[..][index] == previous[index];
      current[index] := previous[index] || current[index - 1];
    }
  }

  method RuneRow(pattern: string, token: char, value: string, previous: array<bool>, lower: Lower)
    returns (current: array<bool>)
    requires token != '*' && Row(pattern, value, previous[..], lower)
    ensures fresh(current) && Row(pattern + [token], value, current[..], lower)
  {
    hide Matches;
    current := new bool[|value| + 1](_ => false);
    RuneCell(pattern, token, value[..0], lower);
    for index := 1 to |value| + 1
      invariant forall j :: 0 <= j < index ==> (current[j] <==> Matches(pattern + [token], value[..j], lower))
    {
      RuneCell(pattern, token, value[..index], lower);
      assert value[..index][..index - 1] == value[..index - 1];
      assert previous[..][index - 1] == previous[index - 1];
      current[index] := previous[index - 1] && (token == '?' || lower(token) == lower(value[index - 1]));
    }
  }

  /** The table decides the glob for every pattern and value. */
  method MatchRunes(pattern: string, value: string, lower: Lower) returns (found: bool)
    ensures found <==> Matches(pattern, value, lower)
  {
    hide Matches;
    var previous := new bool[|value| + 1](_ => false);
    previous[0] := true;
    forall j | 0 <= j <= |value| ensures previous[j] <==> Matches([], value[..j], lower) {
      EmptyPattern(value[..j], lower);
    }
    assert pattern[..0] == [];
    for k := 0 to |pattern|
      invariant Row(pattern[..k], value, previous[..], lower)
    {
      assert pattern[..k + 1] == pattern[..k] + [pattern[k]];
      if pattern[k] == '*' {
        previous := StarRow(pattern[..k], value, previous, lower);
      } else {
        previous := RuneRow(pattern[..k], pattern[k], value, previous, lower);
      }
    }
    assert pattern[..|pattern|] == pattern && value[..|value|] == value;
    found := previous[|value|];
    assert previous[..][|value|] == previous[|value|];
  }

  // ---- case folding ------------------------------------------------------

  /** `strings.ToLower`. */
  function Fold(s: string, lower: Lower): (r: string)
  {
    seq(|s|, i requires 0 <= i < |s| => lower(s[i]))
  }

  ghost predicate GlobMatch(pattern: string, value: string, lower: Lower) {
    Matches(Fold(TrimSpace(pattern), lower), Fold(TrimSpace(value), lower), lower)
  }

  method PermissionGlobMatch(pattern: string, value: string, lower: Lower) returns (found: bool)
    ensures found <==> GlobMatch(pattern, value, lower)
  {
    found := MatchRunes(Fold(TrimSpace(pattern), lower), Fold(TrimSpace(value), lower), lower);
  }

  /** What the Unicode tables guarantee: lower case stays lower case, and the two wild
      cards are the lower case of nothing but themselves. */
  ghost predicate CaseMapping(lower: Lower) {
    (forall c :: lower(lower(c)) == lower(c))
    && (forall c :: lower(c) == '*' <==> c == '*')
    && (forall c :: lower(c) == '?' <==> c == '?')
  }

  /** Lowering both sides first changes nothing: the meaning is case-insensitive equality
      of the written runes. */
  lemma {:induction false} FoldingKeepsMeaning(pattern: string, value: string, lower: Lower)
    requires CaseMapping(lower)
    ensures Matches(Fold(pattern, lower), Fold(value, lower), lower) <==> Matches(pattern, value, lower)
    decreases |pattern|
  {
    hide Matches, Stands;
    if pattern == [] {
      EmptyPattern(value, lower);
      EmptyPattern(Fold(value, lower), lower);
    } else {
      var k := |pattern| - 1;
      var init, token := pattern[..k], pattern[k];
      assert pattern == init + [token];
      assert Fold(pattern, lower) == Fold(init, lower) + [lower(token)];
      if Matches(pattern, value, lower) {
        var cut := SnocOut(init, token, value, lower);
        FoldingCut(init, token, value, cut, lower);
        FoldingKeepsMeaning(init, value[..cut], lower);
        SnocIn(Fold(init, lower), lower(token), Fold(value, lower), cut, lower);
      }
      if Matches(Fold(pattern, lower), Fold(value, lower), lower) {
        var cut := SnocOut(Fold(init, lower), lower(token), Fold(value, lower), lower);
        FoldingCut(init, token, value, cut, lower);
        FoldingKeepsMeaning(init, value[..cut], lower);
        SnocIn(init, token, value, cut, lower);
      }
    }
  }

  lemma FoldingCut(init: string, token: char, value: string, cut: nat, lower: Lower)
    requires CaseMapping(lower) && cut <= |value|
    ensures Fold(value, lower)[..cut] == Fold(value[..cut], lower)
    ensures Stands(lower(token), Fold(value, lower)[cut..], lower) <==> Stands(token, value[cut..], lower)
  {}

  // ---- rules -------------------------------------------------------------

  predicate PrefixMark(s: string) { |s| >= 3 && s[0] == ':' && s[1] == '*' && s[2] == ')' }

  /** `strings.ReplaceAll(pattern, ":*)", "*)")`. */
  function Replace(s: string): string {
    if s == [] then []
    else if PrefixMark(s) then "*)" + Replace(s[3..])
    else [s[0]] + Replace(s[1..])
  }

  predicate Blank(rule: string) { TrimSpace(rule) == [] }

  ghost predicate RuleMatches(rule: string, candidate: string, lower: Lower) {
    !Blank(rule) && GlobMatch(Replace(TrimSpace(rule)), candidate, lower)
  }

  ghost predicate Applies(rule: string, candidates: seq<string>, lower: Lower) {
    exists c :: c in candidates && RuleMatches(rule, c, lower)
  }

  /** The first rule that matches some candidate, or the empty string. */
  ghost predicate FirstMatch(rules: seq<string>, candidates: seq<string>, found: string, lower: Lower) {
    if found == "" then forall i :: 0 <= i < |rules| ==> !Applies(rules[i], candidates, lower)
    else exists i :: 0 <= i < |rules| && rules[i] == found && Applies(found, candidates, lower)
                     && forall j :: 0 <= j < i ==> !Applies(rules[j], candidates, lower)
  }

  method RuleApplies(rule: string, candidates: seq<string>, lower: Lower) returns (yes: bool)
    requires !Blank(rule)
    ensures yes <==> Applies(rule, candidates, lower)
  {
    hide GlobMatch;
    var pattern := Replace(TrimSpace(rule));
    for k := 0 to |candidates|
      invariant forall j :: 0 <= j < k ==> !RuleMatches(rule, candidates[j], lower)
    {
      var found := PermissionGlobMatch(pattern, candidates[k], lower);
      if found {
        assert RuleMatches(rule, candidates[k], lower);
        return true;
      }
    }
    return false;
  }

  method MatchingPermissionRule(rules: seq<string>, candidates: seq<string>, lower: Lower) returns (found: string)
    ensures FirstMatch(rules, candidates, found, lower)
    ensures found != "" <==> exists i :: 0 <= i < |rules| && Applies(rules[i], candidates, lower)
  {
    hide GlobMatch;
    for k := 0 to |rules|
      invariant forall j :: 0 <= j < k ==> !Applies(rules[j], candidates, lower)
    {
      if !Blank(rules[k]) {
        var yes := RuleApplies(rules[k], candidates, lower);
        if yes { return rules[k]; }
      }
    }
    return "";
  }

  /** `permissionCandidates`: the trimmed tool name, and the name with its argument summary. */
  function Candidates(name: string, summary: string): seq<string> {
    var trimmed := TrimSpace(name);
    if trimmed == "" then [] else if summary == "" then [trimmed] else [trimmed, trimmed + "(" + summary + ")"]
  }

  /** What the user, when asked, replies: the chosen option, or a failure of the request. */
  type Answer = Result<string, string>

  datatype Effect = Allowed | Blocked

  ghost predicate Denied(rules: seq<string>, candidates: seq<string>, lower: Lower) {
    exists i :: 0 <= i < |rules| && Applies(rules[i], candidates, lower)
  }

  /** `handle`: `asked` is the rule shown to the user, empty when nobody was asked. */
  method Handle(deny: seq<string>, ask: seq<string>, name: string, summary: string, answer: string -> Answer, lower: Lower)
    returns (effect: Result<Effect, string>, asked: string)
    ensures Denied(deny, Candidates(name, summary), lower) ==> effect == Ok(Blocked) && asked == ""
    ensures !Denied(deny, Candidates(name, summary), lower) ==>
              FirstMatch(ask, Candidates(name, summary), asked, lower)
              && effect == (if asked == "" then Ok(Allowed)
                            else match answer(asked)
                              case Err(e) => Err(e)
                              case Ok(option) => Ok(if option == "allow" then Allowed else Blocked))
    ensures effect == Ok(Allowed) <==>
              !Denied(deny, Candidates(name, summary), lower)
              && (!Denied(ask, Candidates(name, summary), lower) || answer(asked) == Ok("allow"))
  {
    hide Applies;
    var candidates := Candidates(name, summary);
    var denied := MatchingPermissionRule(deny, candidates, lower);
    if denied != "" { return Ok(Blocked), ""; }
    asked := MatchingPermissionRule(ask, candidates, lower);
    if asked == "" { return Ok(Allowed), ""; }
    match answer(asked) {
      case Err(e) => effect := Err(e);
      case Ok(option) => effect := Ok(if option == "allow" then Allowed else Blocked);
    }
  }

  // ---- what the prefix rule `name(command:*)` means ----------------------

  lemma {:induction false} ReplaceAtEnd(p: string)
    ensures Replace(p + ":*)") == Replace(p) + "*)"
  {
    var s := p + ":*)";
    if p == [] {
      assert s == ":*)" && s[3..] == [];
    } else if PrefixMark(p) {
      assert s[3..] == p[3..] + ":*)";
      ReplaceAtEnd(p[3..]);
    } else {
      assert !PrefixMark(s);
      assert s[1..] == p[1..] + ":*)";
      ReplaceAtEnd(p[1..]);
    }
  }

  /** A pattern ending in `*)` matches exactly the values that start with a match of the
      rest, go on with anything, and end with a closing parenthesis. */
  lemma PrefixRule(p: string, value: string, lower: Lower)
    ensures Matches(Replace(p + ":*)"), value, lower) <==>
            value != [] && lower(value[|value| - 1]) == lower(')')
            && exists cut :: 0 <= cut < |value| && Matches(Replace(p), value[..cut], lower)
  {
    hide Matches, Replace;
    ReplaceAtEnd(p);
    var q, n := Replace(p), |value|;
    assert q + "*)" == (q + ['*']) + [')'];
    RuneCell(q + ['*'], ')', value, lower);
    if n > 0 {
      var rest := value[..n - 1];
      if Matches(q + ['*'], rest, lower) {
        var cut := SnocOut(q, '*', rest, lower);
        assert rest[..cut] == value[..cut];
      }
      forall cut | 0 <= cut < n && Matches(q, value[..cut], lower) ensures Matches(q + ['*'], rest, lower) {
        assert rest[..cut] == value[..cut];
        SnocIn(q, '*', rest, cut, lower);
      }
    }
  }

  // ---- what a call is compared with ------------------------------------------

  /** A named call is compared as its name and, with arguments, as name and arguments; a call without
      a name is compared as nothing. */
  lemma CandidatesOf(name: string, summary: string, candidate: string)
    ensures candidate in Candidates(name, summary) <==>
            TrimSpace(name) != "" && (candidate == TrimSpace(name) || (summary != "" && candidate == TrimSpace(name) + "(" + summary + ")"))
  {
    hide TrimSpace;
  }

  /** A deny rule that matches the command of a call blocks it, whatever the other rules say. */
  lemma CommandIsDenied(deny: seq<string>, i: nat, name: string, summary: string, lower: Lower)
    requires i < |deny| && TrimSpace(name) != ""
    requires RuleMatches(deny[i], TrimSpace(name), lower)
             || (summary != "" && RuleMatches(deny[i], TrimSpace(name) + "(" + summary + ")", lower))
    ensures Denied(deny, Candidates(name, summary), lower)
  {
    hide TrimSpace, RuleMatches;
    CandidatesOf(name, summary, TrimSpace(name));
    CandidatesOf(name, summary, TrimSpace(name) + "(" + summary + ")");
    assert Applies(deny[i], Candidates(name, summary), lower);
  }

  /** A rule without the prefix mark is compared as it is written. */
  lemma {:induction false} ReplaceLeaves(s: string)
    requires forall i :: 0 <= i < |s| ==> !PrefixMark(s[i..])
    ensures Replace(s) == s
  {
    if s != [] {
      assert s[0..] == s;
      forall i | 0 <= i < |s[1..]| ensures !PrefixMark(s[1..][i..]) { assert s[1..][i..] == s[i + 1..]; }
      ReplaceLeaves(s[1..]);
      assert s == [s[0]] + s[1..];
    }
  }

  // ---- wild cards and plain runes ------------------------------------------------

  /** A star alone matches everything, a question mark exactly the values of one rune. */
  lemma WildCards(value: string, lower: Lower)
    ensures Matches("*", value, lower)
    ensures Matches("?", value, lower) <==> |value| == 1
  {
    hide Matches;
    assert [] + ['*'] == "*" && [] + ['?'] == "?" && value[..0] == [];
    EmptyPattern([], lower);
    SnocIn([], '*', value, 0, lower);
    RuneCell([], '?', value, lower);
    if value != [] { EmptyPattern(value[..|value| - 1], lower); }
  }

  /** A pattern without wild cards matches exactly the values that read the same up to case. */
  lemma {:induction false} PlainPattern(pattern: string, value: string, lower: Lower)
    requires '*' !in pattern && '?' !in pattern
    ensures Matches(pattern, value, lower) <==>
            |value| == |pattern| && forall i :: 0 <= i < |pattern| ==> lower(value[i]) == lower(pattern[i])
    decreases |pattern|
  {
    hide Matches;
    if pattern == [] {
      EmptyPattern(value, lower);
    } else {
      var k := |pattern| - 1;
      assert pattern == pattern[..k] + [pattern[k]];
      RuneCell(pattern[..k], pattern[k], value, lower);
      if value != [] { PlainPattern(pattern[..k], value[..|value| - 1], lower); }
    }
  }
}
