/**
 * The decoration builder: a global regular-expression scan per rule, a visual
 * treatment per rule mode, one entry per match, a sort by range, and the
 * editor field that a "set decorations" effect replaces wholesale.
 *
 * The regular-expression engine is a parameter. `Engine(pattern)` is
 * `new RegExp(pattern, "g")` (None when the pattern fails to compile), and
 * the compiled value's `exec(text, lastIndex)` reports the first match that
 * starts at or after `lastIndex`, if any.
 */
module Decorations {
  import opened Wrappers
  import opened Types

  /** A successful `exec`: `match.index` and the length of `match[0]`. */
  datatype Hit = Hit(index: nat, length: nat)

  /** A compiled global expression, run on a text with a given `lastIndex`. */
  type Exec = (string, nat) -> Option<Hit>

  /** Compiling a pattern with the `g` flag; None stands for the SyntaxError. */
  type Engine = string -> Option<Exec>

  /** What any regular-expression engine guarantees: a match starts at or after `lastIndex` and lies inside the text. */
  ghost predicate ExecSound(exec: Exec, text: string) {
    forall i: nat :: i <= |text| && exec(text, i).Some? ==>
      i <= exec(text, i).value.index && exec(text, i).value.index + exec(text, i).value.length <= |text|
  }

  ghost predicate EngineSound(engine: Engine, text: string) {
    forall pattern :: engine(pattern).Some? ==> ExecSound(engine(pattern).value, text)
  }

  /** `regex.exec(text)`: a `lastIndex` past the end of the text fails without consulting the pattern. */
  function ExecFrom(exec: Exec, text: string, lastIndex: nat): Option<Hit> {
    if lastIndex > |text| then None else exec(text, lastIndex)
  }

  /** `lastIndex` after a match: its end, bumped by one when the match was empty. */
  function NextIndex(h: Hit): nat {
    var end := h.index + h.length;
    if end == h.index then end + 1 else end
  }

  datatype Range = Range(from: nat, to: nat)

  /** The ranges recorded by the scan loop once `lastIndex` has reached the given position. */
  function Scan(exec: Exec, text: string, lastIndex: nat): seq<Range>
    requires ExecSound(exec, text)
    decreases |text| + 1 - lastIndex
  {
    match ExecFrom(exec, text, lastIndex)
    case None => []
    case Some(h) =>
      assert lastIndex <= |text| && exec(text, lastIndex) == Some(h);
      Recorded(h) + Scan(exec, text, NextIndex(h))
  }

  /** The range a match adds to the result: none for an empty match. */
  function Recorded(h: Hit): seq<Range> {
    if h.length > 0 then [Range(h.index, h.index + h.length)] else []
  }

  /** One round of the scan. */
  lemma ScanStep(exec: Exec, text: string, lastIndex: nat, h: Hit)
    requires ExecSound(exec, text)
    requires ExecFrom(exec, text, lastIndex) == Some(h)
    ensures lastIndex <= |text| && lastIndex <= h.index
    ensures NextIndex(h) > lastIndex
    ensures Scan(exec, text, lastIndex) == Recorded(h) + Scan(exec, text, NextIndex(h))
  {
    assert exec(text, lastIndex) == Some(h);
  }

  lemma AppendAssociative(a: seq<Range>, b: seq<Range>, c: seq<Range>)
    ensures (a + b) + c == a + (b + c)
  {
  }

  /** What `findMatches(text, pattern)` returns. */
  function Matches(engine: Engine, text: string, pattern: string): seq<Range>
    requires EngineSound(engine, text)
  {
    if |pattern| == 0 then []
    else
      match engine(pattern)
      case None => []
      case Some(exec) => Scan(exec, text, 0)
  }

  /**
   * `findMatches`: the global scan. An empty pattern, or one that does not
   * compile, yields no matches; every match returned is non-empty.
   */
  method FindMatches(engine: Engine, text: string, pattern: string) returns (matches: seq<Range>)
    requires EngineSound(engine, text)
    ensures matches == Matches(engine, text, pattern)
    ensures forall k :: 0 <= k < |matches| ==> matches[k].from < matches[k].to <= |text|
  {
    MatchesOrdered(engine, text, pattern);
    matches := [];
    if |pattern| == 0 {
      return;
    }
    var compiled := engine(pattern);
    if compiled.None? {
      // the SyntaxError is caught and the (empty) list returned
      return;
    }
    matches := ScanLoop(compiled.value, text);
  }

  /**
   * The `exec` loop of `findMatches`. Empty matches are not recorded, and
   * `lastIndex` strictly increases on every round, so the loop terminates.
   */
  method ScanLoop(exec: Exec, text: string) returns (matches: seq<Range>)
    requires ExecSound(exec, text)
    ensures matches == Scan(exec, text, 0)
  {
    matches := [];
    var lastIndex: nat := 0;
    var m := ExecFrom(exec, text, lastIndex);
    while m.Some?
      invariant lastIndex <= |text| + 1
      invariant m == ExecFrom(exec, text, lastIndex)
      invariant matches + Scan(exec, text, lastIndex) == Scan(exec, text, 0)
      decreases |text| + 1 - lastIndex
    {
      var h := m.value;
      ghost var before := matches;
      ScanStep(exec, text, lastIndex, h);
      if h.length > 0 {
        matches := matches + [Range(h.index, h.index + h.length)];
      } else {
        assert before + Recorded(h) == before;
      }
      lastIndex := h.index + h.length;
      if lastIndex == h.index {
        lastIndex := lastIndex + 1;
      }
      assert lastIndex == NextIndex(h) && matches == before + Recorded(h);
      AppendAssociative(before, Recorded(h), Scan(exec, text, lastIndex));
      m := ExecFrom(exec, text, lastIndex);
    }
    assert matches + [] == matches;
  }

  /** Every range of a scan from `lastIndex` is non-empty, inside the text, after `lastIndex`, and the ranges do not overlap. */
  lemma {:induction false} ScanOrdered(exec: Exec, text: string, lastIndex: nat)
    requires ExecSound(exec, text)
    ensures forall k :: 0 <= k < |Scan(exec, text, lastIndex)| ==>
      lastIndex <= Scan(exec, text, lastIndex)[k].from < Scan(exec, text, lastIndex)[k].to <= |text|
    ensures forall j, k :: 0 <= j < k < |Scan(exec, text, lastIndex)| ==>
      Scan(exec, text, lastIndex)[j].to <= Scan(exec, text, lastIndex)[k].from
    decreases |text| + 1 - lastIndex
  {
    match ExecFrom(exec, text, lastIndex)
    case None =>
    case Some(h) =>
      assert lastIndex <= |text| && exec(text, lastIndex) == Some(h);
      ScanOrdered(exec, text, NextIndex(h));
  }

  /** The matches of a pattern are non-empty ranges inside the text, in strictly increasing, non-overlapping order. */
  lemma MatchesOrdered(engine: Engine, text: string, pattern: string)
    requires EngineSound(engine, text)
    ensures forall k :: 0 <= k < |Matches(engine, text, pattern)| ==>
      Matches(engine, text, pattern)[k].from < Matches(engine, text, pattern)[k].to <= |text|
    ensures forall j, k :: 0 <= j < k < |Matches(engine, text, pattern)| ==>
      Matches(engine, text, pattern)[j].to <= Matches(engine, text, pattern)[k].from
  {
    if |pattern| > 0 && engine(pattern).Some? {
      ScanOrdered(engine(pattern).value, text, 0);
    }
  }

  /** An empty pattern, or one that does not compile, contributes no matches. */
  lemma UnusablePatternHasNoMatches(engine: Engine, text: string, pattern: string)
    requires EngineSound(engine, text)
    requires |pattern| == 0 || engine(pattern).None?
    ensures Matches(engine, text, pattern) == []
  {
  }

  /* ---------------------------------------------------------------- treatments */

  /** The visual treatment of a decoration; the CSS is not modelled. */
  datatype Treatment =
    | Fill(color: string)       // translucent background and bottom border
    | Outline(color: string)    // outline box
    | Blurred                   // blur filter, no text selection
    | BlackFill                 // black background and black text
    | Replaced(caption: string) // the text is replaced by a marker widget

  /** The fixed text of the replacement widget. */
  const RedactedLabel: string := "[REDACTED]"

  /** `createHighlightDecoration(color, mode)`. */
  function HighlightDecoration(color: string, mode: string): Treatment {
    if mode == "rectangle" then Outline(color) else Fill(color)
  }

  /** `createRedactionDecoration(mode)`: only the mode is consulted. */
  function RedactionDecoration(mode: string): Treatment {
    if mode == "blur" then Blurred
    else if mode == "black" then BlackFill
    else Replaced(RedactedLabel)
  }

  function HighlightTreatment(rule: HighlightRule): Treatment {
    HighlightDecoration(rule.color, HighlightModeName(rule.mode))
  }

  function RedactionTreatment(rule: RedactionRule): Treatment {
    RedactionDecoration(RedactionModeName(rule.Mode()))
  }

  /** A rectangle rule gets an outline, any other highlight rule a fill, both in the rule's color. */
  lemma HighlightTreatmentByMode(rule: HighlightRule)
    ensures HighlightTreatment(rule) == if rule.mode == Rectangle then Outline(rule.color) else Fill(rule.color)
  {
  }

  /**
   * A blur rule is blurred; every other rule of the declared modes, opaque
   * included, gets the "[REDACTED]" widget whatever its replacement text,
   * because only the string "black", which no declared mode is named,
   * selects the black fill.
   */
  lemma RedactionTreatmentByMode(rule: RedactionRule, mode: string)
    ensures RedactionTreatment(rule) == if rule.Mode() == Blur then Blurred else Replaced(RedactedLabel)
    ensures RedactionDecoration(mode) == BlackFill <==> mode == "black"
  {
  }

  /* ---------------------------------------------------------------- entries */

  /** The part of a rule that the builder uses: its pattern and its treatment. */
  datatype MatchRule = MatchRule(pattern: string, treatment: Treatment)

  function HighlightMatchRules(rules: seq<HighlightRule>): seq<MatchRule> {
    if rules == [] then []
    else
      var last := rules[|rules| - 1];
      HighlightMatchRules(rules[..|rules| - 1]) + [MatchRule(last.regex, HighlightTreatment(last))]
  }

  function RedactionMatchRules(rules: seq<RedactionRule>): seq<MatchRule> {
    if rules == [] then []
    else
      var last := rules[|rules| - 1];
      RedactionMatchRules(rules[..|rules| - 1]) + [MatchRule(last.regex, RedactionTreatment(last))]
  }

  lemma {:induction false} HighlightMatchRulesAt(rules: seq<HighlightRule>, i: nat)
    requires i < |rules|
    ensures |HighlightMatchRules(rules)| == |rules|
    ensures HighlightMatchRules(rules)[i] == MatchRule(rules[i].regex, HighlightTreatment(rules[i]))
  {
    var n := |rules| - 1;
    var init := rules[..n];
    assert HighlightMatchRules(rules) == HighlightMatchRules(init) + [MatchRule(rules[n].regex, HighlightTreatment(rules[n]))];
    if n > 0 {
      HighlightMatchRulesAt(init, if i < n then i else 0);
      if i < n {
        assert init[i] == rules[i];
      }
    }
  }

  lemma {:induction false} RedactionMatchRulesAt(rules: seq<RedactionRule>, i: nat)
    requires i < |rules|
    ensures |RedactionMatchRules(rules)| == |rules|
    ensures RedactionMatchRules(rules)[i] == MatchRule(rules[i].regex, RedactionTreatment(rules[i]))
  {
    var n := |rules| - 1;
    var init := rules[..n];
    assert RedactionMatchRules(rules) == RedactionMatchRules(init) + [MatchRule(rules[n].regex, RedactionTreatment(rules[n]))];
    if n > 0 {
      RedactionMatchRulesAt(init, if i < n then i else 0);
      if i < n {
        assert init[i] == rules[i];
      }
    }
  }

  datatype DecorationEntry = DecorationEntry(from: nat, to: nat, treatment: Treatment)

  /** The entries pushed for the matches of one rule. */
  function EntriesFor(matches: seq<Range>, t: Treatment): seq<DecorationEntry> {
    seq(|matches|, k requires 0 <= k < |matches| => DecorationEntry(matches[k].from, matches[k].to, t))
  }

  /** The entries pushed for a list of rules, in rule order and then match order. */
  function EntriesOf(engine: Engine, text: string, rules: seq<MatchRule>): seq<DecorationEntry>
    requires EngineSound(engine, text)
  {
    if rules == [] then []
    else
      var last := rules[|rules| - 1];
      EntriesOf(engine, text, rules[..|rules| - 1]) + EntriesFor(Matches(engine, text, last.pattern), last.treatment)
  }

  /** The unsorted list `applyDecorations` collects: every highlight rule, then every redaction rule. */
  function CollectedEntries(engine: Engine, text: string, highlights: seq<HighlightRule>, redactions: seq<RedactionRule>): seq<DecorationEntry>
    requires EngineSound(engine, text)
  {
    EntriesOf(engine, text, HighlightMatchRules(highlights) + RedactionMatchRules(redactions))
  }

  /** Adding one more match appends its entry. */
  lemma EntriesForStep(matches: seq<Range>, k: nat, t: Treatment)
    requires k < |matches|
    ensures EntriesFor(matches[..k + 1], t) == EntriesFor(matches[..k], t) + [DecorationEntry(matches[k].from, matches[k].to, t)]
  {
  }

  /** `for (const match of matches) decorations.push({from, to, decoration})`. */
  method PushEntries(entries: seq<DecorationEntry>, matches: seq<Range>, decoration: Treatment)
    returns (pushed: seq<DecorationEntry>)
    ensures pushed == entries + EntriesFor(matches, decoration)
  {
    pushed := entries;
    for k := 0 to |matches|
      invariant pushed == entries + EntriesFor(matches[..k], decoration)
    {
      EntriesForStep(matches, k, decoration);
      pushed := pushed + [DecorationEntry(matches[k].from, matches[k].to, decoration)];
    }
    assert matches[..|matches|] == matches;
  }

  /** The entries of a list of rules ending in `last`. */
  lemma EntriesOfSnoc(engine: Engine, text: string, rules: seq<MatchRule>, last: MatchRule)
    requires EngineSound(engine, text)
    ensures EntriesOf(engine, text, rules + [last]) ==
      EntriesOf(engine, text, rules) + EntriesFor(Matches(engine, text, last.pattern), last.treatment)
  {
    assert (rules + [last])[..|rules|] == rules;
  }

  /** One more highlight rule appends the entries for its matches. */
  lemma HighlightEntriesStep(engine: Engine, text: string, highlights: seq<HighlightRule>, i: nat)
    requires EngineSound(engine, text)
    requires i < |highlights|
    ensures EntriesOf(engine, text, HighlightMatchRules(highlights[..i + 1])) ==
      EntriesOf(engine, text, HighlightMatchRules(highlights[..i]))
      + EntriesFor(Matches(engine, text, highlights[i].regex), HighlightDecoration(highlights[i].color, HighlightModeName(highlights[i].mode)))
  {
    assert highlights[..i + 1][..i] == highlights[..i];
    var rules := HighlightMatchRules(highlights[..i + 1]);
    assert rules == HighlightMatchRules(highlights[..i]) + [MatchRule(highlights[i].regex, HighlightTreatment(highlights[i]))];
    assert rules[..|rules| - 1] == HighlightMatchRules(highlights[..i]);
  }

  /** One more redaction rule, after the highlight rules, appends the entries for its matches. */
  lemma RedactionEntriesStep(engine: Engine, text: string, highlights: seq<MatchRule>, redactions: seq<RedactionRule>, i: nat)
    requires EngineSound(engine, text)
    requires i < |redactions|
    ensures EntriesOf(engine, text, highlights + RedactionMatchRules(redactions[..i + 1])) ==
      EntriesOf(engine, text, highlights + RedactionMatchRules(redactions[..i]))
      + EntriesFor(Matches(engine, text, redactions[i].regex), RedactionDecoration(RedactionModeName(redactions[i].Mode())))
  {
    assert redactions[..i + 1][..i] == redactions[..i];
    var last := MatchRule(redactions[i].regex, RedactionTreatment(redactions[i]));
    assert RedactionMatchRules(redactions[..i + 1]) == RedactionMatchRules(redactions[..i]) + [last];
    assert highlights + RedactionMatchRules(redactions[..i + 1]) == (highlights + RedactionMatchRules(redactions[..i])) + [last];
    EntriesOfSnoc(engine, text, highlights + RedactionMatchRules(redactions[..i]), last);
  }

  /** The two collection loops of `applyDecorations`. */
  method CollectEntries(engine: Engine, text: string, highlights: seq<HighlightRule>, redactions: seq<RedactionRule>)
    returns (entries: seq<DecorationEntry>)
    requires EngineSound(engine, text)
    ensures entries == CollectedEntries(engine, text, highlights, redactions)
  {
    entries := CollectHighlightEntries(engine, text, highlights);
    entries := CollectRedactionEntries(engine, text, highlights, redactions, entries);
  }

  /** The loop over the highlight rules, starting from no entries. */
  method CollectHighlightEntries(engine: Engine, text: string, highlights: seq<HighlightRule>)
    returns (entries: seq<DecorationEntry>)
    requires EngineSound(engine, text)
    ensures entries == EntriesOf(engine, text, HighlightMatchRules(highlights))
  {
    entries := [];
    for i := 0 to |highlights|
      invariant entries == EntriesOf(engine, text, HighlightMatchRules(highlights[..i]))
    {
      var rule := highlights[i];
      var matches := FindMatches(engine, text, rule.regex);
      var decoration := HighlightDecoration(rule.color, HighlightModeName(rule.mode));
      entries := PushEntries(entries, matches, decoration);
      HighlightEntriesStep(engine, text, highlights, i);
    }
    assert highlights[..|highlights|] == highlights;
  }

  /** The loop over the redaction rules, continuing the highlight entries. */
  method CollectRedactionEntries(engine: Engine, text: string, highlights: seq<HighlightRule>, redactions: seq<RedactionRule>,
                                 highlighted: seq<DecorationEntry>)
    returns (entries: seq<DecorationEntry>)
    requires EngineSound(engine, text)
    requires highlighted == EntriesOf(engine, text, HighlightMatchRules(highlights))
    ensures entries == CollectedEntries(engine, text, highlights, redactions)
  {
    entries := highlighted;
    assert HighlightMatchRules(highlights) + RedactionMatchRules(redactions[..0]) == HighlightMatchRules(highlights);
    for i := 0 to |redactions|
      invariant entries == EntriesOf(engine, text, HighlightMatchRules(highlights) + RedactionMatchRules(redactions[..i]))
    {
      var rule := redactions[i];
      var matches := FindMatches(engine, text, rule.regex);
      var decoration := RedactionDecoration(RedactionModeName(rule.Mode()));
      entries := PushEntries(entries, matches, decoration);
      RedactionEntriesStep(engine, text, HighlightMatchRules(highlights), redactions, i);
    }
    assert redactions[..|redactions|] == redactions;
  }

  /** An entry for a rule's matches is exactly a match range carrying the rule's treatment. */
  lemma EntriesForMembership(matches: seq<Range>, t: Treatment, e: DecorationEntry)
    ensures e in EntriesFor(matches, t) <==> e.treatment == t && Range(e.from, e.to) in matches
  {
    if Range(e.from, e.to) in matches && e.treatment == t {
      var k :| 0 <= k < |matches| && matches[k] == Range(e.from, e.to);
      assert EntriesFor(matches, t)[k] == e;
    }
  }

  /** The entry is one that the given rule's matches produce. */
  ghost predicate ProducedBy(engine: Engine, text: string, rule: MatchRule, e: DecorationEntry)
    requires EngineSound(engine, text)
  {
    e.treatment == rule.treatment && Range(e.from, e.to) in Matches(engine, text, rule.pattern)
  }

  /**
   * No entry is dropped, clipped or invented: an entry is collected exactly
   * when some rule has a match with that range and that rule's treatment.
   */
  lemma {:induction false} EntriesOfMembership(engine: Engine, text: string, rules: seq<MatchRule>, e: DecorationEntry)
    requires EngineSound(engine, text)
    ensures e in EntriesOf(engine, text, rules) <==>
      exists i :: 0 <= i < |rules| && ProducedBy(engine, text, rules[i], e)
  {
    if rules != [] {
      var n := |rules| - 1;
      var init := rules[..n];
      var last := rules[n];
      EntriesOfMembership(engine, text, init, e);
      EntriesForMembership(Matches(engine, text, last.pattern), last.treatment, e);
      assert EntriesOf(engine, text, rules) == EntriesOf(engine, text, init) + EntriesFor(Matches(engine, text, last.pattern), last.treatment);
      if e in EntriesOf(engine, text, init) {
        var i :| 0 <= i < n && ProducedBy(engine, text, init[i], e);
        assert init[i] == rules[i];
      } else if e in EntriesOf(engine, text, rules) {
        assert ProducedBy(engine, text, rules[n], e);
      } else {
        assert e !in EntriesFor(Matches(engine, text, last.pattern), last.treatment);
        forall i | 0 <= i < |rules|
          ensures !ProducedBy(engine, text, rules[i], e)
        {
          if i < n {
            assert !ProducedBy(engine, text, init[i], e);
            assert init[i] == rules[i];
          } else {
            assert rules[i] == last;
          }
        }
      }
    }
  }

  /** The number of matches of a list of rules. */
  function MatchCount(engine: Engine, text: string, rules: seq<MatchRule>): nat
    requires EngineSound(engine, text)
  {
    if rules == [] then 0
    else MatchCount(engine, text, rules[..|rules| - 1]) + |Matches(engine, text, rules[|rules| - 1].pattern)|
  }

  /** Exactly one entry per match. */
  lemma {:induction false} EntriesOfCount(engine: Engine, text: string, rules: seq<MatchRule>)
    requires EngineSound(engine, text)
    ensures |EntriesOf(engine, text, rules)| == MatchCount(engine, text, rules)
  {
    if rules != [] {
      EntriesOfCount(engine, text, rules[..|rules| - 1]);
    }
  }

  /** Every collected entry is a non-empty range inside the text. */
  lemma {:induction false} EntriesOfWellFormed(engine: Engine, text: string, rules: seq<MatchRule>)
    requires EngineSound(engine, text)
    ensures forall k :: 0 <= k < |EntriesOf(engine, text, rules)| ==>
      EntriesOf(engine, text, rules)[k].from < EntriesOf(engine, text, rules)[k].to <= |text|
  {
    if rules != [] {
      EntriesOfWellFormed(engine, text, rules[..|rules| - 1]);
      MatchesOrdered(engine, text, rules[|rules| - 1].pattern);
    }
  }

  /**
   * Every match of every highlight rule and every redaction rule is
   * collected with that rule's treatment: highlights overlapping a
   * redaction are not suppressed.
   */
  lemma CollectedEntriesComplete(engine: Engine, text: string, highlights: seq<HighlightRule>, redactions: seq<RedactionRule>)
    requires EngineSound(engine, text)
    ensures forall i, r :: 0 <= i < |highlights| && r in Matches(engine, text, highlights[i].regex) ==>
      DecorationEntry(r.from, r.to, HighlightTreatment(highlights[i])) in CollectedEntries(engine, text, highlights, redactions)
    ensures forall i, r :: 0 <= i < |redactions| && r in Matches(engine, text, redactions[i].regex) ==>
      DecorationEntry(r.from, r.to, RedactionTreatment(redactions[i])) in CollectedEntries(engine, text, highlights, redactions)
  {
    forall i, r | 0 <= i < |highlights| && r in Matches(engine, text, highlights[i].regex)
      ensures DecorationEntry(r.from, r.to, HighlightTreatment(highlights[i])) in CollectedEntries(engine, text, highlights, redactions)
    {
      HighlightEntryCollected(engine, text, highlights, redactions, i, r);
    }
    forall i, r | 0 <= i < |redactions| && r in Matches(engine, text, redactions[i].regex)
      ensures DecorationEntry(r.from, r.to, RedactionTreatment(redactions[i])) in CollectedEntries(engine, text, highlights, redactions)
    {
      RedactionEntryCollected(engine, text, highlights, redactions, i, r);
    }
  }

  lemma HighlightEntryCollected(engine: Engine, text: string, highlights: seq<HighlightRule>, redactions: seq<RedactionRule>, i: nat, r: Range)
    requires EngineSound(engine, text)
    requires i < |highlights| && r in Matches(engine, text, highlights[i].regex)
    ensures DecorationEntry(r.from, r.to, HighlightTreatment(highlights[i])) in CollectedEntries(engine, text, highlights, redactions)
  {
    var rules := HighlightMatchRules(highlights) + RedactionMatchRules(redactions);
    var e := DecorationEntry(r.from, r.to, HighlightTreatment(highlights[i]));
    HighlightMatchRulesAt(highlights, i);
    assert rules[i] == MatchRule(highlights[i].regex, HighlightTreatment(highlights[i]));
    assert ProducedBy(engine, text, rules[i], e);
    EntriesOfMembership(engine, text, rules, e);
  }

  lemma RedactionEntryCollected(engine: Engine, text: string, highlights: seq<HighlightRule>, redactions: seq<RedactionRule>, i: nat, r: Range)
    requires EngineSound(engine, text)
    requires i < |redactions| && r in Matches(engine, text, redactions[i].regex)
    ensures DecorationEntry(r.from, r.to, RedactionTreatment(redactions[i])) in CollectedEntries(engine, text, highlights, redactions)
  {
    var rules := HighlightMatchRules(highlights) + RedactionMatchRules(redactions);
    var e := DecorationEntry(r.from, r.to, RedactionTreatment(redactions[i]));
    RedactionMatchRulesAt(redactions, i);
    if highlights != [] {
      HighlightMatchRulesAt(highlights, 0);
    }
    var k := |HighlightMatchRules(highlights)| + i;
    assert rules[k] == MatchRule(redactions[i].regex, RedactionTreatment(redactions[i]));
    assert ProducedBy(engine, text, rules[k], e);
    EntriesOfMembership(engine, text, rules, e);
  }

  /* ---------------------------------------------------------------- sorting */

  /** The comparator `a.from - b.from || a.to - b.to`, as "a may precede b". */
  predicate EntryLe(a: DecorationEntry, b: DecorationEntry) {
    a.from < b.from || (a.from == b.from && a.to <= b.to)
  }

  predicate SortedByRange(s: seq<DecorationEntry>) {
    forall i, j :: 0 <= i < j < |s| ==> EntryLe(s[i], s[j])
  }

  /** Inserting before the first element that does not precede `e`. */
  function InsertEntry(e: DecorationEntry, s: seq<DecorationEntry>): seq<DecorationEntry> {
    if s == [] then [e]
    else if EntryLe(e, s[0]) then [e] + s
    else [s[0]] + InsertEntry(e, s[1..])
  }

  /** `Array.prototype.sort` with that comparator: a stable sort, here by insertion. */
  function SortEntries(s: seq<DecorationEntry>): seq<DecorationEntry> {
    if s == [] then [] else InsertEntry(s[0], SortEntries(s[1..]))
  }

  /** Putting an element that precedes every element in front of a sorted list keeps it sorted. */
  lemma ConsSorted(x: DecorationEntry, s: seq<DecorationEntry>)
    requires SortedByRange(s)
    requires forall y :: y in multiset(s) ==> EntryLe(x, y)
    ensures SortedByRange([x] + s)
  {
    var r := [x] + s;
    forall i, j | 0 <= i < j < |r| ensures EntryLe(r[i], r[j]) {
      assert r[j] == s[j - 1] && s[j - 1] in multiset(s);
      if i > 0 {
        assert r[i] == s[i - 1];
      }
    }
  }

  /** The head of a sorted list precedes its tail and anything it does not follow. */
  lemma HeadPrecedesRest(e: DecorationEntry, s: seq<DecorationEntry>)
    requires SortedByRange(s) && s != [] && !EntryLe(e, s[0])
    ensures forall x :: x in multiset(s[1..]) + multiset{e} ==> EntryLe(s[0], x)
  {
    forall x | x in multiset(s[1..]) + multiset{e}
      ensures EntryLe(s[0], x)
    {
      if x != e {
        var j :| 0 <= j < |s[1..]| && s[1..][j] == x;
        assert s[j + 1] == x;
      }
    }
  }

  lemma {:induction false} InsertEntryCorrect(e: DecorationEntry, s: seq<DecorationEntry>)
    requires SortedByRange(s)
    ensures SortedByRange(InsertEntry(e, s))
    ensures multiset(InsertEntry(e, s)) == multiset(s) + multiset{e}
  {
    if s != [] && !EntryLe(e, s[0]) {
      var tail := s[1..];
      assert s == [s[0]] + tail;
      InsertEntryCorrect(e, tail);
      var rest := InsertEntry(e, tail);
      HeadPrecedesRest(e, s);
      ConsSorted(s[0], rest);
      assert InsertEntry(e, s) == [s[0]] + rest;
      assert multiset([s[0]] + rest) == multiset{s[0]} + multiset(rest);
      assert multiset(s) == multiset{s[0]} + multiset(tail);
    } else {
      assert InsertEntry(e, s) == [e] + s;
      assert multiset([e] + s) == multiset{e} + multiset(s);
      if s != [] {
        ConsSorted(e, s);
      }
    }
  }

  /** The sorted list is ordered by start, ties by end, and is a permutation of its input. */
  lemma {:induction false} SortEntriesCorrect(s: seq<DecorationEntry>)
    ensures SortedByRange(SortEntries(s))
    ensures multiset(SortEntries(s)) == multiset(s)
  {
    if s != [] {
      SortEntriesCorrect(s[1..]);
      InsertEntryCorrect(s[0], SortEntries(s[1..]));
      assert s == [s[0]] + s[1..];
    }
  }

  /** The entries `applyDecorations` installs: collected, then sorted. */
  method BuildDecorations(engine: Engine, text: string, highlights: seq<HighlightRule>, redactions: seq<RedactionRule>)
    returns (sorted: seq<DecorationEntry>)
    requires EngineSound(engine, text)
    ensures sorted == SortEntries(CollectedEntries(engine, text, highlights, redactions))
    ensures SortedByRange(sorted)
    ensures multiset(sorted) == multiset(CollectedEntries(engine, text, highlights, redactions))
    ensures forall k :: 0 <= k < |sorted| ==> sorted[k].from < sorted[k].to <= |text|
  {
    var entries := CollectEntries(engine, text, highlights, redactions);
    sorted := SortEntries(entries);
    SortEntriesCorrect(entries);
    EntriesOfWellFormed(engine, text, HighlightMatchRules(highlights) + RedactionMatchRules(redactions));
    forall k | 0 <= k < |sorted| ensures sorted[k].from < sorted[k].to <= |text| {
      assert sorted[k] in multiset(entries);
    }
  }

  /* ---------------------------------------------------------------- the editor field */

  /** A transaction effect: the builder's "set decorations" effect, or any other. */
  datatype Effect = SetDecorations(entries: seq<DecorationEntry>) | OtherEffect

  /** The field's value after a transaction: the first set effect wins, otherwise the value is kept. */
  function AfterEffects(current: seq<DecorationEntry>, effects: seq<Effect>): seq<DecorationEntry> {
    if effects == [] then current
    else if effects[0].SetDecorations? then effects[0].entries
    else AfterEffects(current, effects[1..])
  }

  /** A set effect replaces the field wholesale; without one the field is unchanged. */
  lemma {:induction false} AfterEffectsReplaces(current: seq<DecorationEntry>, effects: seq<Effect>, i: nat)
    requires i <= |effects|
    requires forall k :: 0 <= k < i ==> !effects[k].SetDecorations?
    ensures i < |effects| && effects[i].SetDecorations? ==> AfterEffects(current, effects) == effects[i].entries
    ensures i == |effects| ==> AfterEffects(current, effects) == current
  {
    if i > 0 {
      AfterEffectsReplaces(current, effects[1..], i - 1);
    }
  }

  /** The decorations field of an editor view. */
  class DecorationField {
    var decorations: seq<DecorationEntry>

    /** `create()`: no decorations. */
    constructor ()
      ensures decorations == []
    {
      decorations := [];
    }

    /** `update(decorations, tr)`, for a transaction that changes no text. */
    method Update(effects: seq<Effect>)
      modifies this
      ensures decorations == AfterEffects(old(decorations), effects)
    {
      var i := 0;
      while i < |effects|
        invariant 0 <= i <= |effects|
        invariant AfterEffects(decorations, effects[i..]) == AfterEffects(old(decorations), effects)
        invariant decorations == old(decorations)
      {
        if effects[i].SetDecorations? {
          decorations := effects[i].entries;
          return;
        }
        assert effects[i..][1..] == effects[i + 1..];
        i := i + 1;
      }
    }
  }

  /** `applyDecorations`: build the sorted entries and dispatch them as one set effect. */
  method ApplyDecorations(field: DecorationField, engine: Engine, text: string,
                          highlights: seq<HighlightRule>, redactions: seq<RedactionRule>)
    requires EngineSound(engine, text)
    modifies field
    ensures field.decorations == SortEntries(CollectedEntries(engine, text, highlights, redactions))
    ensures SortedByRange(field.decorations)
  {
    var sorted := BuildDecorations(engine, text, highlights, redactions);
    field.Update([SetDecorations(sorted)]);
  }
}
