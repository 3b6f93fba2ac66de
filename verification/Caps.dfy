/** Expansion of the runtime markers in a GStreamer caps template. */
module Caps {

  /** The characters of marker names. */
  predicate IsNameChar(c: char) {
    'a' <= c <= 'z' || c == '_'
  }

  /** A marker and the text that replaces it. */
  datatype Rule = Rule(marker: string, text: string)

  /** An at sign followed by a name. */
  predicate IsMarker(m: string) {
    |m| >= 2 && m[0] == '@' && forall i :: 1 <= i < |m| ==> IsNameChar(m[i])
  }

  /** Text that can neither contain nor complete a marker, as a formatted number cannot. */
  predicate IsInert(t: string) {
    t != "" && !IsNameChar(t[0]) && '@' !in t
  }

  predicate WellFormed(r: Rule) {
    IsMarker(r.marker) && IsInert(r.text)
  }

  ghost predicate AllWellFormed(rules: seq<Rule>) {
    forall i :: 0 <= i < |rules| ==> WellFormed(rules[i])
  }

  // ---------- One marker after the other ----------

  /** Every occurrence of one marker replaced, scanning left to right. */
  function Replace(s: string, r: Rule): string
    requires r.marker != ""
    decreases |s|
  {
    if s == "" then ""
    else if r.marker <= s then r.text + Replace(s[|r.marker|..], r)
    else [s[0]] + Replace(s[1..], r)
  }

  // ---------- All markers in one pass ----------

  /** The first rule whose marker starts the text. */
  function Match(s: string, rules: seq<Rule>): (i: nat)
    ensures i <= |rules|
    ensures i < |rules| ==> rules[i].marker <= s
  {
    if rules == [] then 0
    else if rules[0].marker <= s then 0
    else Match(s, rules[1..]) + 1
  }

  lemma {:induction false} MatchIsFirst(s: string, rules: seq<Rule>, j: nat)
    requires j < Match(s, rules)
    ensures !(rules[j].marker <= s)
  {
    if j > 0 { MatchIsFirst(s, rules[1..], j - 1); }
  }

  /** A match begins at an at sign. */
  lemma MatchStartsAtSign(s: string, rules: seq<Rule>)
    requires AllWellFormed(rules) && Match(s, rules) < |rules|
    ensures s != "" && s[0] == '@'
  {
    var r := rules[Match(s, rules)];
    assert WellFormed(r) && r.marker[0] == s[0];
  }

  /** A single left-to-right pass that replaces the first matching marker at each position
      and never looks at inserted text. */
  function Expand(s: string, rules: seq<Rule>): string
    requires AllWellFormed(rules)
    decreases |s|
  {
    if s == "" then ""
    else
      var i := Match(s, rules);
      if i < |rules| then
        assert WellFormed(rules[i]);
        rules[i].text + Expand(s[|rules[i].marker|..], rules)
      else [s[0]] + Expand(s[1..], rules)
  }

  /** The replacements applied one after the other, the first rule first. */
  function ReplaceAll(s: string, rules: seq<Rule>): string
    requires AllWellFormed(rules)
  {
    if rules == [] then s
    else
      var last := |rules| - 1;
      assert WellFormed(rules[last]);
      Replace(ReplaceAll(s, rules[..last]), rules[last])
  }

  // ---------- The two agree ----------

  predicate NameText(u: string) {
    forall i :: 0 <= i < |u| ==> IsNameChar(u[i])
  }

  /** No marker begins inside inserted text. */
  lemma {:induction false} ReplaceSkips(t: string, x: string, r: Rule)
    requires '@' !in t && IsMarker(r.marker)
    ensures Replace(t + x, r) == t + Replace(x, r)
  {
    if t == "" {
      assert t + x == x;
    } else {
      assert (t + x)[1..] == t[1..] + x;
      assert (t + x)[0] == t[0] != r.marker[0];
      ReplaceSkips(t[1..], x, r);
    }
  }

  /** Expansion never creates or destroys the rest of a marker name at a position. */
  lemma {:induction false} NamesSurvive(u: string, s: string, rules: seq<Rule>)
    requires AllWellFormed(rules) && NameText(u)
    ensures u <= Expand(s, rules) <==> u <= s
    decreases |s|
  {
    if u != "" && s != "" {
      var i := Match(s, rules);
      if i < |rules| {
        MatchStartsAtSign(s, rules);
        assert WellFormed(rules[i]);
        assert Expand(s, rules)[0] == rules[i].text[0];
        assert IsNameChar(u[0]);
      } else {
        NamesSurvive(u[1..], s[1..], rules);
        assert Expand(s, rules)[1..] == Expand(s[1..], rules);
        PrefixByHead(u, s);
        PrefixByHead(u, Expand(s, rules));
      }
    }
  }

  lemma PrefixByHead(u: string, s: string)
    requires u != "" && s != ""
    ensures u <= s <==> u[0] == s[0] && u[1..] <= s[1..]
  {
    if u[0] == s[0] && u[1..] <= s[1..] {
      assert u == [u[0]] + u[1..] && s == [s[0]] + s[1..];
      assert u == s[..|u|];
    }
  }

  /** Characters of a marker name are copied. */
  lemma {:induction false} NamesAreCopied(u: string, rest: string, rules: seq<Rule>)
    requires AllWellFormed(rules) && NameText(u)
    ensures Expand(u + rest, rules) == u + Expand(rest, rules)
  {
    if u == "" {
      assert u + rest == rest;
    } else {
      var s := u + rest;
      assert s[0] == u[0] && s[1..] == u[1..] + rest;
      if Match(s, rules) < |rules| { MatchStartsAtSign(s, rules); }
      CopyHead(s, rules);
      NamesAreCopied(u[1..], rest, rules);
      HeadAndTail(u[0], u[1..], Expand(rest, rules), u);
    }
  }

  lemma {:induction false} MatchAppend(s: string, rules: seq<Rule>, r: Rule)
    ensures Match(s, rules + [r])
         == if Match(s, rules) < |rules| then Match(s, rules)
            else if r.marker <= s then |rules| else |rules| + 1
  {
    if rules != [] {
      assert (rules + [r])[1..] == rules[1..] + [r];
      MatchAppend(s, rules[1..], r);
    }
  }

  /** One more replacement after an expansion is the expansion by one more rule. */
  lemma {:induction false} ReplaceAfterExpand(s: string, rules: seq<Rule>, r: Rule)
    requires AllWellFormed(rules) && WellFormed(r)
    ensures AllWellFormed(rules + [r]) && Replace(Expand(s, rules), r) == Expand(s, rules + [r])
    decreases |s|
  {
    if s != "" {
      var i, more := Match(s, rules), rules + [r];
      MatchAppend(s, rules, r);
      if i < |rules| {
        assert WellFormed(rules[i]) && more[i] == rules[i];
        var rest := s[|rules[i].marker|..];
        ReplaceAfterExpand(rest, rules, r);
        ReplaceSkips(rules[i].text, Expand(rest, rules), r);
      } else if r.marker <= s {
        MarkerIsReplaced(s, rules, r);
        ReplaceAfterExpand(s[|r.marker|..], rules, r);
      } else {
        OtherIsCopied(s, rules, r);
        ReplaceAfterExpand(s[1..], rules, r);
      }
    }
  }

  lemma MarkerIsReplaced(s: string, rules: seq<Rule>, r: Rule)
    requires AllWellFormed(rules) && WellFormed(r) && Match(s, rules) == |rules| && r.marker <= s && s != ""
    ensures Replace(Expand(s, rules), r) == r.text + Replace(Expand(s[|r.marker|..], rules), r)
  {
    var m, rest := r.marker, s[|r.marker|..];
    MarkerIsCopied(s, rules, m);
    ReplaceHead(m, Expand(rest, rules), r);
  }

  lemma MarkerIsCopied(s: string, rules: seq<Rule>, m: string)
    requires AllWellFormed(rules) && IsMarker(m) && m <= s && Match(s, rules) == |rules|
    ensures Expand(s, rules) == m + Expand(s[|m|..], rules)
  {
    var name, rest := m[1..], s[|m|..];
    assert s[1..] == name + rest;
    NamesAreCopied(name, rest, rules);
    CopyHead(s, rules);
    HeadAndTail(s[0], name, Expand(rest, rules), m);
  }

  lemma HeadAndTail(c: char, name: string, x: string, m: string)
    requires m != "" && m[0] == c && m[1..] == name
    ensures [c] + (name + x) == m + x
  {
    assert m == [c] + name;
  }

  lemma CopyHead(s: string, rules: seq<Rule>)
    requires AllWellFormed(rules) && s != "" && Match(s, rules) == |rules|
    ensures Expand(s, rules) == [s[0]] + Expand(s[1..], rules)
  {
  }

  lemma ReplaceHead(m: string, x: string, r: Rule)
    requires r.marker == m != ""
    ensures Replace(m + x, r) == r.text + Replace(x, r)
  {
    assert (m + x)[|m|..] == x;
  }

  lemma OtherIsCopied(s: string, rules: seq<Rule>, r: Rule)
    requires AllWellFormed(rules) && WellFormed(r) && Match(s, rules) == |rules| && !(r.marker <= s) && s != ""
    ensures Replace(Expand(s, rules), r) == [s[0]] + Replace(Expand(s[1..], rules), r)
  {
    var x, y := Expand(s, rules), Expand(s[1..], rules);
    CopyHead(s, rules);
    assert x[1..] == y && x[0] == s[0];
    MarkerStaysAbsent(s, rules, r.marker);
  }

  lemma MarkerStaysAbsent(s: string, rules: seq<Rule>, m: string)
    requires AllWellFormed(rules) && IsMarker(m) && Match(s, rules) == |rules| && !(m <= s) && s != ""
    ensures !(m <= Expand(s, rules))
  {
    var y := Expand(s[1..], rules);
    CopyHead(s, rules);
    NamesSurvive(m[1..], s[1..], rules);
    PrefixByHead(m, s);
    PrefixByHead(m, [s[0]] + y);
    assert ([s[0]] + y)[1..] == y;
  }

  /** For every template, replacing the markers one after the other is a single pass. */
  lemma {:induction false} SequentialIsSimultaneous(s: string, rules: seq<Rule>)
    requires AllWellFormed(rules)
    ensures ReplaceAll(s, rules) == Expand(s, rules)
    decreases |rules|
  {
    if rules == [] {
      NoRules(s);
    } else {
      var last := |rules| - 1;
      assert WellFormed(rules[last]);
      assert AllWellFormed(rules[..last]);
      SequentialIsSimultaneous(s, rules[..last]);
      ReplaceAfterExpand(s, rules[..last], rules[last]);
      assert rules == rules[..last] + [rules[last]];
    }
  }

  lemma {:induction false} NoRules(s: string)
    ensures Expand(s, []) == s
  {
    if s != "" { NoRules(s[1..]); }
  }

  // ---------- The caps markers ----------

  /** The markers in the order the expansion replaces them. */
  function CapsRules(width: string, height: string, fraction: string, fps: string): seq<Rule> {
    [Rule("@width", width), Rule("@height", height), Rule("@fps_fraction", fraction), Rule("@fps", fps)]
  }

  lemma CapsRulesWellFormed(width: string, height: string, fraction: string, fps: string)
    requires IsInert(width) && IsInert(height) && IsInert(fraction) && IsInert(fps)
    ensures AllWellFormed(CapsRules(width, height, fraction, fps))
  {
  }

  /** In that order the first marker that matches is the longest one that does. */
  lemma FirstIsLongest(s: string, width: string, height: string, fraction: string, fps: string, j: nat)
    requires j < 4 && CapsRules(width, height, fraction, fps)[j].marker <= s
    ensures var rules := CapsRules(width, height, fraction, fps);
            Match(s, rules) < 4 && |rules[j].marker| <= |rules[Match(s, rules)].marker|
  {
    var rules := CapsRules(width, height, fraction, fps);
    var i := Match(s, rules);
    if j < i { MatchIsFirst(s, rules, j); }
    if i != j {
      assert rules[i].marker[1] == s[1] == rules[j].marker[1];
    }
  }

  /** When one marker extends another, the order of the rules decides: the shorter one first
      leaves the tail of the longer one in the text. */
  lemma OrderMatters(m: string, tail: string, short: string, long: string)
    requires IsMarker(m) && NameText(tail) && tail != "" && IsInert(short) && IsInert(long)
    ensures IsMarker(m + tail)
    ensures Expand(m + tail, [Rule(m + tail, long), Rule(m, short)]) == long
    ensures Expand(m + tail, [Rule(m, short), Rule(m + tail, long)]) == short + tail
  {
    var s, first, second := m + tail, Rule(m, short), Rule(m + tail, long);
    assert s[|s|..] == "" && s[|m|..] == tail;
    assert Match(s, [second, first]) == 0;
    assert long + Expand("", [second, first]) == long;
    assert Match(s, [first, second]) == 0;
    NamesAreCopied(tail, "", [first, second]);
    assert tail + "" == tail && tail + Expand("", [first, second]) == tail;
  }

  /** Text without an at sign is copied. */
  lemma {:induction false} PlainIsCopied(u: string, rest: string, rules: seq<Rule>)
    requires AllWellFormed(rules) && '@' !in u
    ensures Expand(u + rest, rules) == u + Expand(rest, rules)
  {
    if u == "" {
      assert u + rest == rest;
    } else {
      var s := u + rest;
      assert s[0] == u[0] && s[1..] == u[1..] + rest;
      if Match(s, rules) < |rules| { MatchStartsAtSign(s, rules); }
      CopyHead(s, rules);
      PlainIsCopied(u[1..], rest, rules);
      HeadAndTail(u[0], u[1..], Expand(rest, rules), u);
    }
  }

  /** A single marker in plain text is replaced by its own text. */
  lemma OneMarker(before: string, m: string, after: string, rules: seq<Rule>, i: nat)
    requires AllWellFormed(rules) && '@' !in before && '@' !in after
    requires i < |rules| && rules[i].marker == m && Match(m + after, rules) == i
    ensures Expand(before + m + after, rules) == before + rules[i].text + after
  {
    var s := m + after;
    assert WellFormed(rules[i]) && s[|m|..] == after && before + m + after == before + s;
    PlainIsCopied(before, s, rules);
    PlainIsCopied(after, "", rules);
    assert after + "" == after && after + Expand("", rules) == after;
    assert before + (rules[i].text + after) == before + rules[i].text + after;
  }

  /** What a template with one marker expands to: every marker stands for its own text. */
  lemma MarkersExpand(before: string, after: string, width: string, height: string, fraction: string, fps: string)
    requires IsInert(width) && IsInert(height) && IsInert(fraction) && IsInert(fps)
    requires '@' !in before && '@' !in after && (after != "" ==> !IsNameChar(after[0]))
    ensures var rules := CapsRules(width, height, fraction, fps);
            && AllWellFormed(rules)
            && Expand(before + "@width" + after, rules) == before + width + after
            && Expand(before + "@height" + after, rules) == before + height + after
            && Expand(before + "@fps_fraction" + after, rules) == before + fraction + after
            && Expand(before + "@fps" + after, rules) == before + fps + after
  {
    var rules := CapsRules(width, height, fraction, fps);
    CapsRulesWellFormed(width, height, fraction, fps);
    MarkersMatch(after, rules);
    OneMarker(before, "@width", after, rules, 0);
    OneMarker(before, "@height", after, rules, 1);
    OneMarker(before, "@fps_fraction", after, rules, 2);
    OneMarker(before, "@fps", after, rules, 3);
  }

  lemma MarkersMatch(after: string, rules: seq<Rule>)
    requires |rules| == 4 && rules[0].marker == "@width" && rules[1].marker == "@height"
    requires rules[2].marker == "@fps_fraction" && rules[3].marker == "@fps"
    requires after != "" ==> !IsNameChar(after[0])
    ensures Match("@width" + after, rules) == 0 && Match("@height" + after, rules) == 1
    ensures Match("@fps_fraction" + after, rules) == 2 && Match("@fps" + after, rules) == 3
  {
    FirstMatch("@width" + after, rules, 0);
    Differs("@width", "@height" + after, 1);
    FirstMatch("@height" + after, rules, 1);
    FractionMatches(after, rules);
    FpsMatches(after, rules);
  }

  lemma FractionMatches(after: string, rules: seq<Rule>)
    requires |rules| == 4 && rules[0].marker == "@width" && rules[1].marker == "@height"
    requires rules[2].marker == "@fps_fraction"
    ensures Match("@fps_fraction" + after, rules) == 2
  {
    var s := "@fps_fraction" + after;
    Differs("@width", s, 1);
    Differs("@height", s, 1);
    FirstMatch(s, rules, 2);
  }

  lemma FpsMatches(after: string, rules: seq<Rule>)
    requires |rules| == 4 && rules[0].marker == "@width" && rules[1].marker == "@height"
    requires rules[2].marker == "@fps_fraction" && rules[3].marker == "@fps"
    requires after != "" ==> !IsNameChar(after[0])
    ensures Match("@fps" + after, rules) == 3
  {
    var s := "@fps" + after;
    Differs("@width", s, 1);
    Differs("@height", s, 1);
    Differs("@fps_fraction", s, 4);
    FirstMatch(s, rules, 3);
  }

  lemma Differs(m: string, s: string, k: nat)
    requires k < |m| && (k < |s| ==> m[k] != s[k])
    ensures !(m <= s)
  {
  }

  lemma {:induction false} FirstMatch(s: string, rules: seq<Rule>, i: nat)
    requires i < |rules| && rules[i].marker <= s && forall j :: 0 <= j < i ==> !(rules[j].marker <= s)
    ensures Match(s, rules) == i
  {
    if i > 0 { FirstMatch(s, rules[1..], i - 1); }
  }

  /** The expansion loop. */
  method ExpandedCaps(template: string, width: string, height: string, fraction: string, fps: string)
    returns (caps: string)
    requires IsInert(width) && IsInert(height) && IsInert(fraction) && IsInert(fps)
    ensures var rules := CapsRules(width, height, fraction, fps);
            AllWellFormed(rules) && caps == Expand(template, rules)
  {
    CapsRulesWellFormed(width, height, fraction, fps);
    var rules := CapsRules(width, height, fraction, fps);
    caps := template;
    for i := 0 to |rules|
      invariant AllWellFormed(rules[..i]) && caps == ReplaceAll(template, rules[..i])
    {
      assert WellFormed(rules[i]);
      assert rules[..i + 1][..i] == rules[..i] && rules[..i + 1][i] == rules[i];
      caps := Replace(caps, rules[i]);
    }
    assert rules[..|rules|] == rules;
    SequentialIsSimultaneous(template, rules);
  }
}
