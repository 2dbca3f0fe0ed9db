/**
 * The two string operations of Rust's standard library that the generator is built from:
 * `str::contains` with a string pattern and `str::replace`, with either a string pattern or
 * an array of chars as the pattern.
 */
module Text {

  /** `t` occurs in `s` starting at position `i`. */
  predicate OccursAt(s: string, t: string, i: nat) {
    i + |t| <= |s| && s[i..i + |t|] == t
  }

  /** `t` occurs somewhere in `s` (`s.contains(t)`). */
  predicate Contains(s: string, t: string) {
    exists i | 0 <= i <= |s| - |t| :: OccursAt(s, t, i)
  }

  /**
   * `s.replace(pat, rep)`: scans `s` from left to right and replaces every non-overlapping
   * occurrence of `pat` by `rep`; text between occurrences is copied unchanged. Every call
   * site in the system uses a non-empty pattern.
   */
  function Replace(s: string, pat: string, rep: string): string
    requires pat != []
    decreases |s|
  {
    if |s| < |pat| then s
    else if s[..|pat|] == pat then rep + Replace(s[|pat|..], pat, rep)
    else [s[0]] + Replace(s[1..], pat, rep)
  }

  /** `s.replace([c1, c2, ...], rep)`: every char of `s` that is in `cs` becomes `rep`. */
  function ReplaceAny(s: string, cs: set<char>, rep: string): string
  {
    if s == [] then [] else (if s[0] in cs then rep else [s[0]]) + ReplaceAny(s[1..], cs, rep)
  }

  // ---------------------------------------------------------------------------------------
  // Replace with a string pattern

  /** With no occurrence of the pattern, replacing changes nothing. */
  lemma {:induction false} ReplaceUnchanged(s: string, pat: string, rep: string)
    requires pat != []
    requires !Contains(s, pat)
    ensures Replace(s, pat, rep) == s
  {
    if |s| >= |pat| {
      assert s[0..|pat|] == s[..|pat|];
      assert !OccursAt(s, pat, 0);
      assert !Contains(s[1..], pat) by {
        forall i | 0 <= i <= |s[1..]| - |pat| && OccursAt(s[1..], pat, i)
          ensures false
        {
          assert s[1..][i..i + |pat|] == s[i + 1..i + 1 + |pat|];
          assert OccursAt(s, pat, i + 1);
        }
      }
      ReplaceUnchanged(s[1..], pat, rep);
      assert [s[0]] + s[1..] == s;
    }
  }

  /** A char that is neither in the text nor in the replacement is not in the result. */
  lemma {:induction false} ReplaceChars(s: string, pat: string, rep: string, c: char)
    requires pat != []
    requires c !in s && c !in rep
    ensures c !in Replace(s, pat, rep)
    decreases |s|
  {
    if |s| >= |pat| {
      if s[..|pat|] == pat {
        ReplaceChars(s[|pat|..], pat, rep, c);
      } else {
        ReplaceChars(s[1..], pat, rep, c);
      }
    }
  }

  /** Replacing a one-char pattern by text without that char removes it entirely. */
  lemma {:induction false} ReplaceRemovesChar(s: string, c: char, rep: string)
    requires c !in rep
    ensures c !in Replace(s, [c], rep)
    decreases |s|
  {
    if |s| >= 1 {
      if s[..1] == [c] {
        ReplaceRemovesChar(s[1..], c, rep);
      } else {
        assert s[0] != c by { assert s[..1] == [s[0]]; }
        ReplaceRemovesChar(s[1..], c, rep);
      }
    }
  }

  /** A char that is not part of the pattern survives the replacement. */
  lemma {:induction false} ReplaceKeepsChar(s: string, pat: string, rep: string, c: char)
    requires pat != []
    requires c in s && c !in pat
    ensures c in Replace(s, pat, rep)
    decreases |s|
  {
    if |s| >= |pat| {
      if s[..|pat|] == pat {
        assert s == s[..|pat|] + s[|pat|..];
        ReplaceKeepsChar(s[|pat|..], pat, rep, c);
      } else if s[0] != c {
        assert s == [s[0]] + s[1..];
        ReplaceKeepsChar(s[1..], pat, rep, c);
      }
    }
  }

  /** A replacement at least as long as the pattern never shortens the text. */
  lemma {:induction false} ReplaceNotShorter(s: string, pat: string, rep: string)
    requires pat != [] && |pat| <= |rep|
    ensures |s| <= |Replace(s, pat, rep)|
    decreases |s|
  {
    if |s| >= |pat| {
      if s[..|pat|] == pat {
        ReplaceNotShorter(s[|pat|..], pat, rep);
      } else {
        ReplaceNotShorter(s[1..], pat, rep);
      }
    }
  }

  /** A replacement at most as long as the pattern never lengthens the text. */
  lemma {:induction false} ReplaceNotLonger(s: string, pat: string, rep: string)
    requires pat != [] && |rep| <= |pat|
    ensures |Replace(s, pat, rep)| <= |s|
    decreases |s|
  {
    if |s| >= |pat| {
      if s[..|pat|] == pat {
        ReplaceNotLonger(s[|pat|..], pat, rep);
      } else {
        ReplaceNotLonger(s[1..], pat, rep);
      }
    }
  }

  /** A char other than the pattern's first is copied unchanged. */
  lemma ReplaceCons(c: char, t: string, pat: string, rep: string)
    requires pat != [] && c != pat[0]
    ensures Replace([c] + t, pat, rep) == [c] + Replace(t, pat, rep)
  {
    var s := [c] + t;
    if |s| < |pat| {
      assert Replace(t, pat, rep) == t;
    } else {
      assert s[..|pat|][0] == c;
      assert s[1..] == t;
    }
  }

  /** A prefix that does not contain the pattern's first char is copied unchanged. */
  lemma {:induction false} ReplaceSkip(a: string, b: string, pat: string, rep: string)
    requires pat != [] && pat[0] !in a
    ensures Replace(a + b, pat, rep) == a + Replace(b, pat, rep)
    decreases |a|
  {
    if a != [] {
      assert a + b == [a[0]] + (a[1..] + b);
      assert pat[0] !in a[1..];
      ReplaceSkip(a[1..], b, pat, rep);
      ReplaceCons(a[0], a[1..] + b, pat, rep);
      assert a == [a[0]] + a[1..];
    } else {
      assert a + b == b;
    }
  }

  /** A text without the pattern's first char is left unchanged. */
  lemma ReplaceAbsent(s: string, pat: string, rep: string)
    requires pat != [] && pat[0] !in s
    ensures Replace(s, pat, rep) == s
  {
    ReplaceSkip(s, [], pat, rep);
    assert s + [] == s;
  }

  /** Replacing a single char by a single char maps the text char by char. */
  lemma {:induction false} ReplaceCharAt(s: string, c: char, d: char)
    ensures |Replace(s, [c], [d])| == |s|
    ensures forall i :: 0 <= i < |s| ==> Replace(s, [c], [d])[i] == if s[i] == c then d else s[i]
    decreases |s|
  {
    if |s| >= 1 {
      assert s[..1] == [s[0]];
      ReplaceCharAt(s[1..], c, d);
    }
  }

  /** A one-char pattern cannot straddle two texts, so replacing it distributes over `+`. */
  lemma {:induction false} ReplaceCharAppend(a: string, b: string, c: char, rep: string)
    ensures Replace(a + b, [c], rep) == Replace(a, [c], rep) + Replace(b, [c], rep)
    decreases |a|
  {
    if a == [] {
      assert a + b == b;
    } else {
      assert (a + b)[..1] == a[..1] == [a[0]];
      assert (a + b)[1..] == a[1..] + b;
      ReplaceCharAppend(a[1..], b, c, rep);
    }
  }

  /** An occurrence of the pattern at the front is replaced. */
  lemma ReplaceHit(b: string, pat: string, rep: string)
    requires pat != []
    ensures Replace(pat + b, pat, rep) == rep + Replace(b, pat, rep)
  {
    assert (pat + b)[..|pat|] == pat;
    assert (pat + b)[|pat|..] == b;
  }

  // ---------------------------------------------------------------------------------------
  // Replace with a set of chars as the pattern

  /** Replacing chars is done char by char, so it distributes over concatenation. */
  lemma {:induction false} ReplaceAnyAppend(a: string, b: string, cs: set<char>, rep: string)
    ensures ReplaceAny(a + b, cs, rep) == ReplaceAny(a, cs, rep) + ReplaceAny(b, cs, rep)
  {
    if a != [] {
      assert (a + b)[1..] == a[1..] + b;
      ReplaceAnyAppend(a[1..], b, cs, rep);
    } else {
      assert a + b == b;
    }
  }

  /** With a one-char replacement, the result is `s` with each char of `cs` mapped to it. */
  lemma {:induction false} ReplaceAnyAt(s: string, cs: set<char>, c: char)
    ensures |ReplaceAny(s, cs, [c])| == |s|
    ensures forall i :: 0 <= i < |s| ==> ReplaceAny(s, cs, [c])[i] == if s[i] in cs then c else s[i]
  {
    if s != [] {
      ReplaceAnyAt(s[1..], cs, c);
    }
  }

  /** The chars of the result: those of `s` outside `cs`, and those of the replacement. */
  lemma {:induction false} ReplaceAnyChars(s: string, cs: set<char>, rep: string, c: char)
    ensures c in ReplaceAny(s, cs, rep) ==> (c in s && c !in cs) || c in rep
    ensures c in s && c !in cs ==> c in ReplaceAny(s, cs, rep)
  {
    if s != [] {
      ReplaceAnyChars(s[1..], cs, rep, c);
      assert c in s <==> c == s[0] || c in s[1..] by { assert s == [s[0]] + s[1..]; }
    }
  }

  /** A replacement that is not empty never shortens the text. */
  lemma {:induction false} ReplaceAnyNotShorter(s: string, cs: set<char>, rep: string)
    requires rep != []
    ensures |s| <= |ReplaceAny(s, cs, rep)|
  {
    if s != [] {
      ReplaceAnyNotShorter(s[1..], cs, rep);
    }
  }

  /** A text with no char of `cs` is left unchanged. */
  lemma {:induction false} ReplaceAnyUnchanged(s: string, cs: set<char>, rep: string)
    requires forall i :: 0 <= i < |s| ==> s[i] !in cs
    ensures ReplaceAny(s, cs, rep) == s
  {
    if s != [] {
      ReplaceAnyUnchanged(s[1..], cs, rep);
      assert s == [s[0]] + s[1..];
    }
  }
  // ---------------------------------------------------------------------------------------
  // Chains of replacements

  /** One `.replace(pat, rep)` call of a chain. */
  datatype Rule = Rule(pat: string, rep: string)

  /** Every pattern of the chain is non-empty. */
  predicate WellFormed(rules: seq<Rule>) {
    forall k | 0 <= k < |rules| :: rules[k].pat != []
  }

  /** `s.replace(p1, r1).replace(p2, r2)...`: the rules applied one after the other. */
  function ApplyRules(s: string, rules: seq<Rule>): string
    requires WellFormed(rules)
    decreases |rules|
  {
    if rules == [] then s else ApplyRules(Replace(s, rules[0].pat, rules[0].rep), rules[1..])
  }

  /** A char in neither the text nor any replacement text is not in the result. */
  lemma {:induction false} RulesKeepOut(s: string, rules: seq<Rule>, c: char)
    requires WellFormed(rules)
    requires c !in s && forall k | 0 <= k < |rules| :: c !in rules[k].rep
    ensures c !in ApplyRules(s, rules)
    decreases |rules|
  {
    if rules != [] {
      ReplaceChars(s, rules[0].pat, rules[0].rep, c);
      RulesKeepOut(Replace(s, rules[0].pat, rules[0].rep), rules[1..], c);
    }
  }

  /** A rule that removes a char removes it for good when no later rule brings it back. */
  lemma {:induction false} RulesRemove(s: string, rules: seq<Rule>, k: nat, c: char)
    requires WellFormed(rules)
    requires k < |rules| && rules[k].pat == [c]
    requires forall j | k <= j < |rules| :: c !in rules[j].rep
    ensures c !in ApplyRules(s, rules)
    decreases |rules|
  {
    var s' := Replace(s, rules[0].pat, rules[0].rep);
    if k == 0 {
      ReplaceRemovesChar(s, c, rules[0].rep);
      RulesKeepOut(s', rules[1..], c);
    } else {
      RulesRemove(s', rules[1..], k - 1, c);
    }
  }

  /** A char that is in no pattern survives the chain. */
  lemma {:induction false} RulesKeep(s: string, rules: seq<Rule>, c: char)
    requires WellFormed(rules)
    requires c in s && forall k | 0 <= k < |rules| :: c !in rules[k].pat
    ensures c in ApplyRules(s, rules)
    decreases |rules|
  {
    if rules != [] {
      ReplaceKeepsChar(s, rules[0].pat, rules[0].rep, c);
      RulesKeep(Replace(s, rules[0].pat, rules[0].rep), rules[1..], c);
    }
  }

  /** A text with none of the patterns' first chars goes through the chain unchanged. */
  lemma {:induction false} RulesAbsent(s: string, rules: seq<Rule>)
    requires WellFormed(rules)
    requires forall k | 0 <= k < |rules| :: rules[k].pat[0] !in s
    ensures ApplyRules(s, rules) == s
    decreases |rules|
  {
    if rules != [] {
      ReplaceAbsent(s, rules[0].pat, rules[0].rep);
      RulesAbsent(s, rules[1..]);
    }
  }

  /** A rule whose pattern cannot start anywhere in the text does nothing. */
  lemma RulesStepAbsent(s: string, rules: seq<Rule>)
    requires WellFormed(rules) && rules != [] && rules[0].pat[0] !in s
    ensures ApplyRules(s, rules) == ApplyRules(s, rules[1..])
  {
    ReplaceAbsent(s, rules[0].pat, rules[0].rep);
  }

  /** The first rule skips a prefix that does not contain its pattern's first char. */
  lemma RulesStepSkip(a: string, b: string, rules: seq<Rule>)
    requires WellFormed(rules) && rules != [] && rules[0].pat[0] !in a
    ensures ApplyRules(a + b, rules) ==
            ApplyRules(a + Replace(b, rules[0].pat, rules[0].rep), rules[1..])
  {
    ReplaceSkip(a, b, rules[0].pat, rules[0].rep);
  }

  /** A first rule with a one-char pattern works on both halves of a text separately. */
  lemma RulesStepChar(a: string, b: string, rules: seq<Rule>)
    requires WellFormed(rules) && rules != [] && |rules[0].pat| == 1
    ensures ApplyRules(a + b, rules) ==
            ApplyRules(Replace(a, rules[0].pat, rules[0].rep) + Replace(b, rules[0].pat, rules[0].rep), rules[1..])
  {
    assert rules[0].pat == [rules[0].pat[0]];
    ReplaceCharAppend(a, b, rules[0].pat[0], rules[0].rep);
  }

  /** A prefix without any pattern's first char goes through the chain unchanged. */
  lemma {:induction false} RulesSkip(a: string, b: string, rules: seq<Rule>)
    requires WellFormed(rules)
    requires forall k | 0 <= k < |rules| :: rules[k].pat[0] !in a
    ensures ApplyRules(a + b, rules) == a + ApplyRules(b, rules)
    decreases |rules|
  {
    if rules != [] {
      ReplaceSkip(a, b, rules[0].pat, rules[0].rep);
      RulesSkip(a, Replace(b, rules[0].pat, rules[0].rep), rules[1..]);
    }
  }

  /** Applying a chain in two parts is applying the whole chain. */
  lemma {:induction false} RulesSplit(s: string, first: seq<Rule>, rest: seq<Rule>)
    requires WellFormed(first) && WellFormed(rest)
    ensures WellFormed(first + rest)
    ensures ApplyRules(s, first + rest) == ApplyRules(ApplyRules(s, first), rest)
    decreases |first|
  {
    assert WellFormed(first + rest) by {
      forall k | 0 <= k < |first + rest|
        ensures (first + rest)[k].pat != []
      {
        if k < |first| { assert (first + rest)[k] == first[k]; }
        else { assert (first + rest)[k] == rest[k - |first|]; }
      }
    }
    if first != [] {
      assert (first + rest)[1..] == first[1..] + rest;
      RulesSplit(Replace(s, first[0].pat, first[0].rep), first[1..], rest);
    } else {
      assert first + rest == rest;
    }
  }

  /** Rules whose replacements are at least as long as their patterns never shorten the text. */
  lemma {:induction false} RulesNotShorter(s: string, rules: seq<Rule>)
    requires WellFormed(rules)
    requires forall k | 0 <= k < |rules| :: |rules[k].pat| <= |rules[k].rep|
    ensures |s| <= |ApplyRules(s, rules)|
    decreases |rules|
  {
    if rules != [] {
      ReplaceNotShorter(s, rules[0].pat, rules[0].rep);
      RulesNotShorter(Replace(s, rules[0].pat, rules[0].rep), rules[1..]);
    }
  }

  /** Rules whose replacements are at most as long as their patterns never lengthen the text. */
  lemma {:induction false} RulesNotLonger(s: string, rules: seq<Rule>)
    requires WellFormed(rules)
    requires forall k | 0 <= k < |rules| :: |rules[k].rep| <= |rules[k].pat|
    ensures |ApplyRules(s, rules)| <= |s|
    decreases |rules|
  {
    if rules != [] {
      ReplaceNotLonger(s, rules[0].pat, rules[0].rep);
      RulesNotLonger(Replace(s, rules[0].pat, rules[0].rep), rules[1..]);
    }
  }

  // ---------------------------------------------------------------------------------------
  // Texts made of words

  /** The words `ws` with `sep` between each two of them. */
  function Join(ws: seq<string>, sep: string): string
  {
    if ws == [] then [] else if |ws| == 1 then ws[0] else ws[0] + sep + Join(ws[1..], sep)
  }

  /** Replacing chars maps each word and each separator on its own. */
  lemma {:induction false} ReplaceAnyJoin(ws: seq<string>, vs: seq<string>, sep: string, cs: set<char>, rep: string)
    requires |vs| == |ws|
    requires forall i | 0 <= i < |ws| :: ReplaceAny(ws[i], cs, rep) == vs[i]
    ensures ReplaceAny(Join(ws, sep), cs, rep) == Join(vs, ReplaceAny(sep, cs, rep))
  {
    if |ws| > 1 {
      ReplaceAnyJoin(ws[1..], vs[1..], sep, cs, rep);
      ReplaceAnyAppend(ws[0] + sep, Join(ws[1..], sep), cs, rep);
      ReplaceAnyAppend(ws[0], sep, cs, rep);
    }
  }

  /** A char that is in no word and not in the separator is not in the joined text. */
  lemma {:induction false} JoinKeepsOut(ws: seq<string>, sep: string, cs: set<char>)
    requires forall i, k | 0 <= i < |ws| && 0 <= k < |ws[i]| :: ws[i][k] !in cs
    requires forall k | 0 <= k < |sep| :: sep[k] !in cs
    ensures forall k | 0 <= k < |Join(ws, sep)| :: Join(ws, sep)[k] !in cs
  {
    if |ws| > 1 {
      JoinKeepsOut(ws[1..], sep, cs);
      var r := Join(ws[1..], sep);
      assert Join(ws, sep) == ws[0] + sep + r;
      forall k | 0 <= k < |Join(ws, sep)| ensures Join(ws, sep)[k] !in cs {
        if k < |ws[0]| {
          assert Join(ws, sep)[k] == ws[0][k];
        } else if k < |ws[0]| + |sep| {
          assert Join(ws, sep)[k] == sep[k - |ws[0]|];
        } else {
          assert Join(ws, sep)[k] == r[k - |ws[0]| - |sep|];
        }
      }
    } else if |ws| == 1 {
      assert Join(ws, sep) == ws[0];
    }
  }

  /** Replacing a one-char separator that occurs in no word swaps the separator. */
  lemma {:induction false} ReplaceJoin(ws: seq<string>, c: char, rep: string)
    requires forall i | 0 <= i < |ws| :: c !in ws[i]
    ensures Replace(Join(ws, [c]), [c], rep) == Join(ws, rep)
  {
    if |ws| == 1 {
      ReplaceAbsent(ws[0], [c], rep);
    } else if |ws| > 1 {
      ReplaceJoin(ws[1..], c, rep);
      ReplaceCharAppend(ws[0] + [c], Join(ws[1..], [c]), c, rep);
      ReplaceCharAppend(ws[0], [c], c, rep);
      ReplaceAbsent(ws[0], [c], rep);
      ReplaceHit([], [c], rep);
      assert [c] + [] == [c];
      assert rep + [] == rep;
    }
  }

  /** What a suffix contains, the whole text contains. */
  lemma ContainsAppend(a: string, b: string, t: string)
    requires Contains(b, t)
    ensures Contains(a + b, t)
  {
    var i :| 0 <= i <= |b| - |t| && OccursAt(b, t, i);
    assert (a + b)[|a| + i..|a| + i + |t|] == b[i..i + |t|];
    assert OccursAt(a + b, t, |a| + i);
  }

  /** What a prefix contains, the whole text contains. */
  lemma ContainsFront(a: string, b: string, t: string)
    requires Contains(a, t)
    ensures Contains(a + b, t)
  {
    var i :| 0 <= i <= |a| - |t| && OccursAt(a, t, i);
    assert (a + b)[i..i + |t|] == a[i..i + |t|];
    assert OccursAt(a + b, t, i);
  }

  /** What one of the words contains, their join contains. */
  lemma {:induction false} ContainsJoin(ws: seq<string>, sep: string, k: nat, t: string)
    requires k < |ws| && Contains(ws[k], t)
    ensures Contains(Join(ws, sep), t)
    decreases |ws|
  {
    if |ws| > 1 {
      if k == 0 {
        ContainsFront(ws[0], sep + Join(ws[1..], sep), t);
        assert ws[0] + sep + Join(ws[1..], sep) == ws[0] + (sep + Join(ws[1..], sep));
      } else {
        ContainsJoin(ws[1..], sep, k - 1, t);
        ContainsAppend(ws[0] + sep, Join(ws[1..], sep), t);
      }
    }
  }

  /** No `x` in `s` is directly followed by `y`. */
  predicate NoPair(s: string, x: char, y: char) {
    forall i | 0 <= i < |s| - 1 :: !(s[i] == x && s[i + 1] == y)
  }

  /** A text in which the first two chars of `t` never follow each other does not contain `t`. */
  lemma NoPairAbsent(s: string, t: string)
    requires |t| >= 2 && NoPair(s, t[0], t[1])
    ensures !Contains(s, t)
  {
  }

  /** Two texts without the pair have none in their concatenation unless it straddles them. */
  lemma NoPairAppend(a: string, b: string, x: char, y: char)
    requires NoPair(a, x, y) && NoPair(b, x, y)
    requires a == [] || b == [] || !(a[|a| - 1] == x && b[0] == y)
    ensures NoPair(a + b, x, y)
  {
    forall i | 0 <= i < |a + b| - 1 ensures !((a + b)[i] == x && (a + b)[i + 1] == y) {
      if i < |a| - 1 {
        assert (a + b)[i] == a[i] && (a + b)[i + 1] == a[i + 1];
      } else if i >= |a| {
        assert (a + b)[i] == b[i - |a|] && (a + b)[i + 1] == b[i - |a| + 1];
      }
    }
  }

  /** A separator that is neither char of the pair cannot start or end one. */
  lemma {:induction false} NoPairJoin(ws: seq<string>, c: char, x: char, y: char)
    requires c != x && c != y
    requires forall i | 0 <= i < |ws| :: NoPair(ws[i], x, y)
    ensures NoPair(Join(ws, [c]), x, y)
  {
    if |ws| > 1 {
      NoPairJoin(ws[1..], c, x, y);
      NoPairAppend(ws[0], [c], x, y);
      NoPairAppend(ws[0] + [c], Join(ws[1..], [c]), x, y);
    }
  }
}
