/**
 * The two name-building functions of the test generator (test-generator/src/lib.rs):
 * `sanitize_description`, which turns a test description into a function name, and
 * `normalize_path`, which turns the path of a YAML test file into a module name.
 */
module Naming {
  import opened Text

  /** The chars that the first replacement of `sanitize_description` turns into '_'. */
  const Separators: set<char> := {' ', '-', '(', ')', '\'', ',', '.', ';'}

  /** The replacements `sanitize_description` makes after the first, in order. */
  const SanitizeRules: seq<Rule> := [
    Rule("=>", "arrow"),
    Rule("$", "dollar_sign"),
    Rule("/", "or"),
    Rule("?", "question_mark"),
    Rule("=", "equals"),
    Rule("*", "star"),
    Rule("|", "pipe_")
  ]

  /** The first chars of the patterns in `SanitizeRules`. */
  const RuleChars: set<char> := {'$', '/', '?', '=', '*', '|'}

  /** Every char that `sanitize_description` gets rid of. */
  const Removed: set<char> := Separators + RuleChars

  /** `s` has no char that starts a pattern of `SanitizeRules`. */
  predicate NoRuleChars(s: string) {
    forall i | 0 <= i < |s| :: s[i] !in RuleChars
  }

  /**
   * `sanitize_description`: the separators become '_', then the fixed chain of replacements.
   * `=>` is replaced before any lone `=`, so an arrow becomes `arrow` and not `equals>`.
   */
  function SanitizeDescription(description: string): string
  {
    var d := ReplaceAny(description, Separators, "_");
    Replace(Replace(Replace(Replace(Replace(Replace(Replace(
      d, "=>", "arrow"), "$", "dollar_sign"), "/", "or"), "?", "question_mark"), "=", "equals"), "*", "star"), "|", "pipe_")
  }

  /** The separators' replacement followed by `SanitizeRules`, as one chain of rules. */
  ghost function SanitizeAsRules(description: string): string
  {
    assert WellFormed(SanitizeRules);
    ApplyRules(ReplaceAny(description, Separators, "_"), SanitizeRules)
  }

  /** `sanitize_description` is that chain. */
  lemma SanitizeByRules(description: string)
    ensures SanitizeDescription(description) == SanitizeAsRules(description)
  {
  }

  /** The replacements of `normalize_path`, in order. */
  const NormalizeRules: seq<Rule> := [
    Rule("../tests/", ""),
    Rule("../tests\\", ""),
    Rule("/", "_"),
    Rule("\\\\", "_"),
    Rule("\\", "_"),
    Rule(".yml", "")
  ]

  /**
   * `normalize_path`: drops `../tests/` (in either separator convention), maps separators to
   * '_' (a doubled backslash to a single '_'), and drops `.yml`, wherever these occur.
   */
  function NormalizePath(path: string): string
  {
    ApplyRules(path, NormalizeRules)
  }

  // ---------------------------------------------------------------------------------------
  // sanitize_description

  /** The chars a replacement text of `sanitize_description` is made of. */
  predicate NameChar(c: char) {
    'a' <= c <= 'z' || c == '_'
  }

  /** Every replacement text is made of lower-case letters and '_'. */
  lemma ReplacementsAreNameChars(c: char)
    requires !NameChar(c)
    ensures forall k | 0 <= k < |SanitizeRules| :: c !in SanitizeRules[k].rep
  {
    forall k | 0 <= k < |SanitizeRules|
      ensures c !in SanitizeRules[k].rep
    {
      var rep := SanitizeRules[k].rep;
      assert forall i | 0 <= i < |rep| :: NameChar(rep[i]);
    }
  }

  /** No char of `Removed` is left in a sanitized description. */
  lemma SanitizeRemoves(description: string, c: char)
    requires c in Removed
    ensures c !in SanitizeDescription(description)
  {
    SanitizeByRules(description);
    ChainRemoves(description, c);
  }

  /** The same, about the chain of rules. */
  lemma ChainRemoves(description: string, c: char)
    requires c in Removed
    ensures c !in SanitizeAsRules(description)
  {
    var d1 := ReplaceAny(description, Separators, "_");
    assert !NameChar(c);
    ReplacementsAreNameChars(c);
    if c in Separators {
      ReplaceAnyChars(description, Separators, "_", c);
      RulesKeepOut(d1, SanitizeRules, c);
    } else {
      var k := if c == '$' then 1 else if c == '/' then 2 else if c == '?' then 3
               else if c == '=' then 4 else if c == '*' then 5 else 6;
      RulesRemove(d1, SanitizeRules, k, c);
    }
  }

  /** Every other char of the description except '>' is kept. */
  lemma SanitizeKeeps(description: string, c: char)
    requires c in description && c !in Removed && c != '>'
    ensures c in SanitizeDescription(description)
  {
    SanitizeByRules(description);
    ChainKeeps(description, c);
  }

  /** The same, about the chain of rules. */
  lemma ChainKeeps(description: string, c: char)
    requires c in description && c !in Removed && c != '>'
    ensures c in SanitizeAsRules(description)
  {
    ReplaceAnyChars(description, Separators, "_", c);
    RulesKeep(ReplaceAny(description, Separators, "_"), SanitizeRules, c);
  }

  /** A sanitized description is made of kept chars and the chars of the replacement texts. */
  lemma SanitizeChars(description: string, c: char)
    requires c in SanitizeDescription(description)
    ensures (c in description && c !in Removed) || NameChar(c)
  {
    SanitizeByRules(description);
    ChainChars(description, c);
  }

  /** The same, about the chain of rules. */
  lemma ChainChars(description: string, c: char)
    requires c in SanitizeAsRules(description)
    ensures (c in description && c !in Removed) || NameChar(c)
  {
    if !NameChar(c) {
      if c in Removed {
        ChainRemoves(description, c);
      } else if c !in description {
        ChainNoNewChars(description, c);
      }
    }
  }

  /** The chain of rules brings in no char but name chars. */
  lemma ChainNoNewChars(description: string, c: char)
    requires !NameChar(c) && c !in description
    ensures c !in SanitizeAsRules(description)
  {
    ReplacementsAreNameChars(c);
    ReplaceAnyChars(description, Separators, "_", c);
    RulesKeepOut(ReplaceAny(description, Separators, "_"), SanitizeRules, c);
  }

  /** A description without any char of `Removed` is already a valid name. */
  lemma SanitizeUnchanged(description: string)
    requires forall i :: 0 <= i < |description| ==> description[i] !in Removed
    ensures SanitizeDescription(description) == description
  {
    SanitizeByRules(description);
    ChainUnchanged(description);
  }

  /** The same, about the chain of rules. */
  lemma ChainUnchanged(description: string)
    requires forall i :: 0 <= i < |description| ==> description[i] !in Removed
    ensures SanitizeAsRules(description) == description
  {
    ReplaceAnyUnchanged(description, Separators, "_");
    RulesAbsent(description, SanitizeRules);
  }

  /** Sanitizing twice is sanitizing once. */
  lemma SanitizeIdempotent(description: string)
    ensures SanitizeDescription(SanitizeDescription(description)) == SanitizeDescription(description)
  {
    var s := SanitizeDescription(description);
    forall i | 0 <= i < |s|
      ensures s[i] !in Removed
    {
      if s[i] in Removed {
        SanitizeRemoves(description, s[i]);
      }
    }
    SanitizeUnchanged(s);
  }

  /** Every replacement text is at least as long as what it replaces. */
  lemma SanitizeNotShorter(description: string)
    ensures |description| <= |SanitizeDescription(description)|
  {
    SanitizeByRules(description);
    ChainNotShorter(description);
  }

  /** The same, about the chain of rules. */
  lemma ChainNotShorter(description: string)
    ensures |description| <= |SanitizeAsRules(description)|
  {
    ReplaceAnyNotShorter(description, Separators, "_");
    RulesNotShorter(ReplaceAny(description, Separators, "_"), SanitizeRules);
  }

  /** Each pattern of `SanitizeRules` starts with a char of `RuleChars`. */
  lemma RulePatternsStart()
    ensures forall k | 0 <= k < |SanitizeRules| :: SanitizeRules[k].pat[0] in RuleChars
  {
  }

  /** Replacing the separators by '_' brings in no char of `RuleChars`. */
  lemma SeparatorsBringNoRuleChars(d: string)
    requires NoRuleChars(d)
    ensures NoRuleChars(ReplaceAny(d, Separators, "_"))
  {
    ReplaceAnyAt(d, Separators, '_');
  }

  /** The chain of `SanitizeRules` leaves alone a prefix free of rule chars. */
  lemma SanitizePrefix(x: string, rest: string)
    requires NoRuleChars(x)
    ensures SanitizeDescription(x + rest) ==
            ReplaceAny(x, Separators, "_") + ApplyRules(ReplaceAny(rest, Separators, "_"), SanitizeRules)
  {
    SanitizeByRules(x + rest);
    ChainPrefix(x, rest);
  }

  /** The same, about the chain of rules. */
  lemma ChainPrefix(x: string, rest: string)
    requires NoRuleChars(x)
    ensures SanitizeAsRules(x + rest) ==
            ReplaceAny(x, Separators, "_") + ApplyRules(ReplaceAny(rest, Separators, "_"), SanitizeRules)
  {
    ReplaceAnyAppend(x, rest, Separators, "_");
    SeparatorsBringNoRuleChars(x);
    RulePatternsStart();
    RulesSkip(ReplaceAny(x, Separators, "_"), ReplaceAny(rest, Separators, "_"), SanitizeRules);
  }

  /** Concatenation is associative. */
  lemma Regroup(a: string, b: string, c: string)
    ensures a + b + c == a + (b + c)
  {
  }

  /** The separators' replacement leaves a leading rule char in place. */
  lemma SeparatorsAfterRuleChar(c: char, y: string)
    requires c in RuleChars
    ensures ReplaceAny([c] + y, Separators, "_") == [c] + ReplaceAny(y, Separators, "_")
  {
    assert ([c] + y)[1..] == y;
  }

  /**
   * A description whose only removed chars are separators is sanitized char by char: each
   * separator becomes '_' and every other char is kept in place.
   */
  lemma SanitizeMapsSeparators(description: string)
    requires NoRuleChars(description)
    ensures SanitizeDescription(description) == ReplaceAny(description, Separators, "_")
    ensures |SanitizeDescription(description)| == |description|
    ensures forall i | 0 <= i < |description| ::
              SanitizeDescription(description)[i] ==
                if description[i] in Separators then '_' else description[i]
  {
    SanitizeByRules(description);
    ChainMapsSeparators(description);
  }

  /** The same, about the chain of rules. */
  lemma ChainMapsSeparators(description: string)
    requires NoRuleChars(description)
    ensures SanitizeAsRules(description) == ReplaceAny(description, Separators, "_")
    ensures |SanitizeAsRules(description)| == |description|
    ensures forall i | 0 <= i < |description| ::
              SanitizeAsRules(description)[i] ==
                if description[i] in Separators then '_' else description[i]
  {
    var d1 := ReplaceAny(description, Separators, "_");
    ReplaceAnyAt(description, Separators, '_');
    SeparatorsBringNoRuleChars(description);
    RulePatternsStart();
    RulesAbsent(d1, SanitizeRules);
  }

  /** The rules after the first leave an occurrence of `arrow` alone. */
  lemma ArrowStep(z: string)
    requires NoRuleChars(z)
    ensures ApplyRules("=>" + z, SanitizeRules) == "arrow" + z
  {
    RulePatternsStart();
    var rest := SanitizeRules[1..];
    ReplaceHit(z, "=>", "arrow");
    ReplaceAbsent(z, "=>", "arrow");
    assert forall k | 0 <= k < |rest| :: rest[k].pat[0] !in "arrow";
    RulesSkip("arrow", z, rest);
    RulesAbsent(z, rest);
  }

  /** The separators' replacement leaves `=>` in place. */
  lemma SeparatorsKeepArrow(y: string)
    ensures ReplaceAny("=>" + y, Separators, "_") == "=>" + ReplaceAny(y, Separators, "_")
  {
    var ry := ReplaceAny(y, Separators, "_");
    assert "=>" + y == ['='] + (">" + y);
    SeparatorsAfterRuleChar('=', ">" + y);
    assert ReplaceAny(">" + y, Separators, "_") == ">" + ry;
    assert ['='] + (">" + ry) == "=>" + ry;
  }

  /** `=>` is replaced as a whole by `arrow`, before a lone `=` could become `equals`. */
  lemma SanitizeArrow(x: string, y: string)
    requires NoRuleChars(x) && NoRuleChars(y)
    ensures SanitizeDescription(x + "=>" + y) ==
            ReplaceAny(x, Separators, "_") + "arrow" + ReplaceAny(y, Separators, "_")
  {
    SeparatorsBringNoRuleChars(y);
    Regroup(x, "=>", y);
    SanitizePrefix(x, "=>" + y);
    SeparatorsKeepArrow(y);
    ArrowStep(ReplaceAny(y, Separators, "_"));
    Regroup(ReplaceAny(x, Separators, "_"), "arrow", ReplaceAny(y, Separators, "_"));
  }

  /** The first rule leaves a `=` alone when no '>' follows it. */
  lemma LoneEqualsPassesArrowRule(z: string)
    requires NoRuleChars(z)
    requires z == [] || z[0] != '>'
    ensures Replace("=" + z, "=>", "arrow") == "=" + z
  {
    var s0 := "=" + z;
    if |s0| >= 2 {
      assert s0[..2] != "=>" by { assert s0[1] == z[0] != '>'; }
      assert s0[1..] == z;
      ReplaceAbsent(z, "=>", "arrow");
    }
  }

  /** The rules for `$`, `/` and `?` leave a text without those chars alone. */
  lemma MiddleRulesAbsent(z: string)
    requires NoRuleChars(z)
    ensures ApplyRules("=" + z, SanitizeRules[1..]) == ApplyRules("=" + z, SanitizeRules[4..])
  {
    var s0 := "=" + z;
    assert '$' !in s0 && '/' !in s0 && '?' !in s0 by {
      assert s0 == ['='] + z;
    }
    RulesStepAbsent(s0, SanitizeRules[1..]);
    assert SanitizeRules[1..][1..] == SanitizeRules[2..];
    RulesStepAbsent(s0, SanitizeRules[2..]);
    assert SanitizeRules[2..][1..] == SanitizeRules[3..];
    RulesStepAbsent(s0, SanitizeRules[3..]);
    assert SanitizeRules[3..][1..] == SanitizeRules[4..];
  }

  /** The rule for `=` turns a leading `=` into `equals`, and the last two rules do nothing. */
  lemma EqualsRuleHits(z: string)
    requires NoRuleChars(z)
    ensures ApplyRules("=" + z, SanitizeRules[4..]) == "equals" + z
  {
    RulePatternsStart();
    ReplaceHit(z, "=", "equals");
    ReplaceAbsent(z, "=", "equals");
    var rest := SanitizeRules[5..];
    assert SanitizeRules[4..][1..] == rest;
    assert forall k | 0 <= k < |rest| :: rest[k].pat[0] !in "equals";
    RulesSkip("equals", z, rest);
    RulesAbsent(z, rest);
  }

  /** A `=` that does not start `=>` passes the first rule and is replaced by the fifth. */
  lemma EqualsStep(z: string)
    requires NoRuleChars(z)
    requires z == [] || z[0] != '>'
    ensures ApplyRules("=" + z, SanitizeRules) == "equals" + z
  {
    LoneEqualsPassesArrowRule(z);
    MiddleRulesAbsent(z);
    EqualsRuleHits(z);
  }

  /** A lone `=`, not followed by '>', becomes `equals`. */
  lemma SanitizeEquals(x: string, y: string)
    requires NoRuleChars(x) && NoRuleChars(y)
    requires y == [] || y[0] != '>'
    ensures SanitizeDescription(x + "=" + y) ==
            ReplaceAny(x, Separators, "_") + "equals" + ReplaceAny(y, Separators, "_")
  {
    var ry := ReplaceAny(y, Separators, "_");
    SeparatorsBringNoRuleChars(y);
    Regroup(x, "=", y);
    SanitizePrefix(x, "=" + y);
    SeparatorsAfterRuleChar('=', y);
    SeparatorsKeepFirst(y);
    EqualsStep(ry);
    Regroup(ReplaceAny(x, Separators, "_"), "equals", ry);
  }

  /** The separators' replacement keeps a first char that is not '>' away from '>'. */
  lemma SeparatorsKeepFirst(y: string)
    requires y == [] || y[0] != '>'
    ensures var ry := ReplaceAny(y, Separators, "_"); ry == [] || ry[0] != '>'
  {
  }

  /** The literal facts behind `SanitizeArrowExample`. */
  lemma ArrowExampleParts(d: string, x: string, y: string, e: string)
    requires d == "a => b" && x == "a " && y == " b" && e == "a_arrow_b"
    ensures d == x + "=>" + y && NoRuleChars(x) && NoRuleChars(y)
    ensures e == ReplaceAny(x, Separators, "_") + "arrow" + ReplaceAny(y, Separators, "_")
  {
    ReplaceAnyAt(x, Separators, '_');
    ReplaceAnyAt(y, Separators, '_');
    assert ReplaceAny(x, Separators, "_") == "a_";
    assert ReplaceAny(y, Separators, "_") == "_b";
  }

  /** Sample pair: an arrow between two words. */
  lemma SanitizeArrowExample(description: string, name: string)
    requires description == "a => b" && name == "a_arrow_b"
    ensures SanitizeDescription(description) == name
  {
    ArrowExampleParts(description, "a ", " b", name);
    SanitizeArrow("a ", " b");
  }

  /** The literal facts behind `SanitizeEqualsExample`. */
  lemma EqualsExampleParts(d: string, x: string, y: string, e: string)
    requires d == "x=y" && x == "x" && y == "y" && e == "xequalsy"
    ensures d == x + "=" + y && NoRuleChars(x) && NoRuleChars(y) && y[0] != '>'
    ensures e == ReplaceAny(x, Separators, "_") + "equals" + ReplaceAny(y, Separators, "_")
  {
    assert ReplaceAny(x, Separators, "_") == "x";
    assert ReplaceAny(y, Separators, "_") == "y";
  }

  /** Sample pair: an equals sign between two words. */
  lemma SanitizeEqualsExample(description: string, name: string)
    requires description == "x=y" && name == "xequalsy"
    ensures SanitizeDescription(description) == name
  {
    EqualsExampleParts(description, "x", "y", name);
    SanitizeEquals("x", "y");
  }

  // ---------------------------------------------------------------------------------------
  // normalize_path

  /** A module name has no path separator left. */
  lemma NormalizeNoSeparators(path: string)
    ensures '/' !in NormalizePath(path) && '\\' !in NormalizePath(path)
  {
    RulesRemove(path, NormalizeRules, 2, '/');
    RulesRemove(path, NormalizeRules, 4, '\\');
  }

  /** Every replacement is at most as long as what it replaces. */
  lemma NormalizeNotLonger(path: string)
    ensures |NormalizePath(path)| <= |path|
  {
    RulesNotLonger(path, NormalizeRules);
  }

  /** `normalize_path` removes a leading `../tests/`. */
  lemma NormalizeStripsTestRoot(path: string)
    ensures NormalizePath("../tests/" + path) == NormalizePath(path)
  {
    ReplaceHit(path, "../tests/", "");
    assert "" + Replace(path, "../tests/", "") == Replace(path, "../tests/", "");
  }

  /**
   * A prefix with no '.' and no '\\' is normalized on its own, with only its '/' mapped to
   * '_': every other rule needs a '.' or a '\\' to start a match.
   */
  lemma NormalizeAppend(p: string, e: string)
    requires '.' !in p && '\\' !in p
    ensures NormalizePath(p + e) == Replace(p, "/", "_") + NormalizePath(e)
  {
    var R := NormalizeRules;
    var q := Replace(p, "/", "_");
    var e1 := Replace(e, "../tests/", "");
    var e2 := Replace(e1, "../tests\\", "");
    var e3 := Replace(e2, "/", "_");
    RulesStepSkip(p, e, R);
    RulesStepSkip(p, e1, R[1..]);
    assert R[1..][1..] == R[2..];
    RulesStepChar(p, e2, R[2..]);
    assert R[2..][1..] == R[3..];
    NormalizeTailSkips(q, e3, p);
    NormalizeHead(e);
  }

  /**
   * `normalize_path` removes `../tests/` wherever it occurs, not only at the front: after a
   * prefix with no '.' and no '\\' it is dropped, and the prefix keeps only its '/' mapped.
   */
  lemma NormalizeStripsInnerTestRoot(p: string, path: string)
    requires '.' !in p && '\\' !in p
    ensures NormalizePath(p + "../tests/" + path) == Replace(p, "/", "_") + NormalizePath(path)
  {
    assert p + "../tests/" + path == p + ("../tests/" + path);
    NormalizeAppend(p, "../tests/" + path);
    NormalizeStripsTestRoot(path);
  }

  /** The last three rules of `normalize_path` skip a prefix with no '.' and no '\\'. */
  lemma NormalizeTailSkips(q: string, e3: string, p: string)
    requires '.' !in p && '\\' !in p && q == Replace(p, "/", "_")
    ensures ApplyRules(q + e3, NormalizeRules[3..]) == q + ApplyRules(e3, NormalizeRules[3..])
  {
    ReplaceChars(p, "/", "_", '.');
    ReplaceChars(p, "/", "_", '\\');
    RulesSkip(q, e3, NormalizeRules[3..]);
  }

  /** The first three rules of `normalize_path`, spelled out. */
  lemma NormalizeHead(e: string)
    ensures NormalizePath(e) == ApplyRules(
              Replace(Replace(Replace(e, "../tests/", ""), "../tests\\", ""), "/", "_"),
              NormalizeRules[3..])
  {
    assert NormalizeRules[1..][1..] == NormalizeRules[2..];
    assert NormalizeRules[2..][1..] == NormalizeRules[3..];
  }

  /** A text shorter than `../tests/` cannot contain it. */
  lemma ShortSkipsTestRoots(e: string)
    requires |e| < 9
    ensures Replace(e, "../tests/", "") == e && Replace(e, "../tests\\", "") == e
  {
  }

  /** Without a '\\', only the `.yml` rule of the last three can act. */
  lemma NormalizeLastRules(e: string)
    requires '\\' !in e
    ensures ApplyRules(e, NormalizeRules[3..]) == Replace(e, ".yml", "")
  {
    var R := NormalizeRules[3..];
    RulesStepAbsent(e, R);
    assert R[1..] == NormalizeRules[4..];
    RulesStepAbsent(e, R[1..]);
    assert R[1..][1..] == NormalizeRules[5..];
  }

  /** On a text shorter than `../tests/` without separators only the `.yml` rule can act. */
  lemma NormalizeShort(e: string)
    requires |e| < 9 && '/' !in e && '\\' !in e
    ensures NormalizePath(e) == Replace(e, ".yml", "")
  {
    NormalizeHead(e);
    ShortSkipsTestRoots(e);
    ReplaceAbsent(e, "/", "_");
    NormalizeLastRules(e);
  }

  /** The `.yml` extension normalizes to nothing. */
  lemma NormalizeYml(e: string)
    requires e == ".yml"
    ensures NormalizePath(e) == ""
  {
    NormalizeShort(e);
    ReplaceHit([], ".yml", "");
    assert e + [] == e;
  }

  /** The `.yml` rule does not match inside `.yaml`. */
  lemma YamlSurvivesYmlRule(e: string)
    requires e == ".yaml"
    ensures Replace(e, ".yml", "") == e
  {
    assert e[..4] != ".yml" by { assert e[..4][2] == 'a' && ".yml"[2] == 'm'; }
    assert e[1..] == "yaml";
    ReplaceAbsent(e[1..], ".yml", "");
  }

  /** The `.yaml` extension is kept as it is. */
  lemma NormalizeYaml(e: string)
    requires e == ".yaml"
    ensures NormalizePath(e) == e
  {
    NormalizeShort(e);
    YamlSurvivesYmlRule(e);
  }

  /**
   * An ordinary `.yml` path, with no other '.' and no '\\', becomes its text before `.yml`
   * with each '/' mapped to '_', char by char.
   */
  lemma NormalizeOrdinary(p: string)
    requires '.' !in p && '\\' !in p
    ensures NormalizePath(p + ".yml") == Replace(p, "/", "_")
    ensures |NormalizePath(p + ".yml")| == |p|
    ensures forall i | 0 <= i < |p| ::
              NormalizePath(p + ".yml")[i] == if p[i] == '/' then '_' else p[i]
  {
    NormalizeAppend(p, ".yml");
    NormalizeYml(".yml");
    ReplaceCharAt(p, '/', '_');
    assert Replace(p, "/", "_") + "" == Replace(p, "/", "_");
  }

  /** A `.yaml` path keeps its extension: only `.yml` is stripped. */
  lemma NormalizeKeepsYaml(p: string)
    requires '.' !in p && '\\' !in p
    ensures NormalizePath(p + ".yaml") == Replace(p, "/", "_") + ".yaml"
  {
    NormalizeAppend(p, ".yaml");
    NormalizeYaml(".yaml");
  }

  /** `normalize_path` is not injective: a '/' and a '_' in the same place give the same name. */
  lemma NormalizeNotInjective(x: string, y: string)
    requires '.' !in x + y && '\\' !in x + y && '/' !in x + y
    ensures x + "/" + y != x + "_" + y
    ensures NormalizePath(x + "/" + y + ".yml") == NormalizePath(x + "_" + y + ".yml") == x + "_" + y
  {
    assert (x + "/" + y)[|x|] == '/' != '_' == (x + "_" + y)[|x|];
    NormalizeOrdinary(x + "/" + y);
    NormalizeOrdinary(x + "_" + y);
    ReplaceCharAppend(x + "/", y, '/', "_");
    ReplaceCharAppend(x, "/", '/', "_");
    ReplaceCharAppend(x + "_", y, '/', "_");
    ReplaceCharAppend(x, "_", '/', "_");
    ReplaceAbsent(x, "/", "_");
    ReplaceAbsent(y, "/", "_");
    ReplaceAbsent("_", "/", "_");
    ReplaceHit([], "/", "_");
    assert "/" + [] == "/";
  }

  /** The instance that the module names of the system can collide on. */
  lemma NormalizeCollision(p1: string, p2: string)
    requires p1 == "a/b.yml" && p2 == "a_b.yml"
    ensures p1 != p2 && NormalizePath(p1) == NormalizePath(p2) == "a_b"
  {
    CollisionParts(p1, p2, "a", "b");
    NormalizeNotInjective("a", "b");
  }

  /** The literal facts behind `NormalizeCollision`. */
  lemma CollisionParts(p1: string, p2: string, x: string, y: string)
    requires p1 == "a/b.yml" && p2 == "a_b.yml" && x == "a" && y == "b"
    ensures p1 == x + "/" + y + ".yml" && p2 == x + "_" + y + ".yml" && x + "_" + y == "a_b"
    ensures '.' !in x + y && '\\' !in x + y && '/' !in x + y
  {
  }

  /** `.yml` is removed in one left-to-right pass, so removing one can leave another. */
  lemma NormalizeLeavesYml(path: string)
    requires path == "..ymlyml"
    ensures NormalizePath(path) == ".yml"
  {
    NormalizeShort(path);
    YmlRuleOnePass(path);
  }

  /** The `.yml` rule on `..ymlyml`: the match starts at the second '.'. */
  lemma YmlRuleOnePass(path: string)
    requires path == "..ymlyml"
    ensures Replace(path, ".yml", "") == ".yml"
  {
    assert path[..4] != ".yml" by { assert path[..4][1] == '.' && ".yml"[1] == 'y'; }
    assert path[1..] == ".yml" + "yml";
    ReplaceHit("yml", ".yml", "");
  }

  // ---------------------------------------------------------------------------------------
  // Descriptions and paths made of plain words

  /** The chars of identifiers: ASCII letters, digits and '_'. */
  predicate WordChar(c: char) {
    'a' <= c <= 'z' || 'A' <= c <= 'Z' || '0' <= c <= '9' || c == '_'
  }

  /** A word made of identifier chars only. */
  predicate Plain(w: string) {
    forall k | 0 <= k < |w| :: WordChar(w[k])
  }

  /** No identifier char is removed by `sanitize_description` or is a separator of a path. */
  lemma WordCharKept(c: char)
    requires WordChar(c)
    ensures c !in Removed && c != '\\' && c != '>'
  {
  }

  /** Plain words are left alone by the first replacement and hold no rule char. */
  lemma PlainWords(ws: seq<string>)
    requires forall i | 0 <= i < |ws| :: Plain(ws[i])
    ensures forall i | 0 <= i < |ws| :: NoRuleChars(ws[i]) && ReplaceAny(ws[i], Separators, "_") == ws[i]
    ensures forall i, k | 0 <= i < |ws| && 0 <= k < |ws[i]| :: ws[i][k] !in RuleChars
  {
    forall i | 0 <= i < |ws| ensures NoRuleChars(ws[i]) && ReplaceAny(ws[i], Separators, "_") == ws[i] {
      forall k | 0 <= k < |ws[i]| ensures ws[i][k] !in Removed {
        WordCharKept(ws[i][k]);
      }
      ReplaceAnyUnchanged(ws[i], Separators, "_");
    }
  }

  /**
   * Parts without rule chars joined by a separator text without rule chars are sanitized part
   * by part: each part as its first replacement maps it, and the separator likewise.
   */
  lemma SanitizeJoin(ws: seq<string>, vs: seq<string>, sep: string, rsep: string)
    requires |vs| == |ws|
    requires forall i | 0 <= i < |ws| :: NoRuleChars(ws[i]) && ReplaceAny(ws[i], Separators, "_") == vs[i]
    requires NoRuleChars(sep) && ReplaceAny(sep, Separators, "_") == rsep
    ensures NoRuleChars(Join(ws, sep))
    ensures ReplaceAny(Join(ws, sep), Separators, "_") == Join(vs, rsep)
    ensures SanitizeDescription(Join(ws, sep)) == Join(vs, rsep)
  {
    ReplaceAnyJoin(ws, vs, sep, Separators, "_");
    JoinKeepsOut(ws, sep, RuleChars);
    SanitizeMapsSeparators(Join(ws, sep));
  }

  /** A single space and a comma followed by a space, as the first replacement maps them. */
  lemma SpaceAndComma()
    ensures NoRuleChars(" ") && ReplaceAny(" ", Separators, "_") == "_"
    ensures NoRuleChars(", ") && ReplaceAny(", ", Separators, "_") == "__"
  {
  }

  /** Plain words separated by spaces become the same words separated by '_'. */
  lemma SanitizeWords(ws: seq<string>)
    requires forall i | 0 <= i < |ws| :: Plain(ws[i])
    ensures NoRuleChars(Join(ws, " "))
    ensures ReplaceAny(Join(ws, " "), Separators, "_") == Join(ws, "_")
    ensures SanitizeDescription(Join(ws, " ")) == Join(ws, "_")
  {
    PlainWords(ws);
    SpaceAndComma();
    SanitizeJoin(ws, ws, " ", "_");
  }

  /** Plain components joined by '/' give a path with no '.' and no '\\'. */
  lemma PlainPath(ws: seq<string>)
    requires forall i | 0 <= i < |ws| :: Plain(ws[i])
    ensures '.' !in Join(ws, "/") && '\\' !in Join(ws, "/")
    ensures forall i | 0 <= i < |ws| :: '/' !in ws[i]
  {
    forall i, k | 0 <= i < |ws| && 0 <= k < |ws[i]| ensures ws[i][k] !in {'.', '\\', '/'} {
      WordCharKept(ws[i][k]);
    }
    forall i | 0 <= i < |ws| ensures '/' !in ws[i] {
      assert forall k | 0 <= k < |ws[i]| :: ws[i][k] != '/';
    }
    JoinKeepsOut(ws, "/", {'.', '\\'});
    var p := Join(ws, "/");
    assert forall k | 0 <= k < |p| :: p[k] != '.' && p[k] != '\\';
  }

  /** The path of plain components ending in `.yml` becomes the components joined by '_'. */
  lemma NormalizeWords(ws: seq<string>)
    requires forall i | 0 <= i < |ws| :: Plain(ws[i])
    ensures NormalizePath(Join(ws, "/") + ".yml") == Join(ws, "_")
  {
    PlainPath(ws);
    NormalizeOrdinary(Join(ws, "/"));
    ReplaceJoin(ws, '/', "_");
  }
}
