/** Event types named in a message (app/conversation/catalog_event_type.py). The text and the labels
    are already normalized; `isWord` stands for the regular expression class \w. */
module Mentions {
  import opened Common

  datatype EventType =
    | Wedding | CivilWedding | Proposal | Birthday | Graduation | Anniversary | RomanticDinner | CorporateEvent
    | FamilyEvent | Baptism | FirstCommunion | BabyShower | Workshop | PoolDay | PrivateDinner | GenderReveal | Other

  /** One row of the label table; some labels count only as answers to the question for the type. */
  datatype Label = Label(kind: EventType, text: string, answerOnly: bool)

  datatype Mention = Mention(kind: EventType, text: string, start: nat, end: nat)

  /** No label is empty, and one label means one type. */
  predicate ValidTable(table: seq<Label>) {
    && (forall i | 0 <= i < |table| :: table[i].text != "")
    && (forall i, j | 0 <= i < |table| && 0 <= j < |table| && table[i].text == table[j].text ::
          table[i].kind == table[j].kind)
  }

  // ----- Matches of one label -----

  /** The label stands at this position, with no word character on either side. */
  predicate StandsAt(text: string, phrase: string, at: nat, isWord: char -> bool) {
    && at + |phrase| <= |text| && text[at..at + |phrase|] == phrase
    && (at > 0 ==> !isWord(text[at-1])) && (at + |phrase| < |text| ==> !isWord(text[at + |phrase|]))
  }

  /** re.finditer: leftmost matches that do not overlap, from a position on. */
  function FindFrom(text: string, phrase: string, from: nat, isWord: char -> bool): seq<nat>
    requires phrase != ""
    decreases if from <= |text| then |text| - from + 1 else 0
  {
    if from + |phrase| > |text| then []
    else if StandsAt(text, phrase, from, isWord)
    then [from] + FindFrom(text, phrase, from + |phrase|, isWord)
    else FindFrom(text, phrase, from + 1, isWord)
  }

  /** Matches are occurrences. */
  lemma {:induction false} FoundStands(text: string, phrase: string, from: nat, isWord: char -> bool, at: nat)
    requires phrase != "" && at in FindFrom(text, phrase, from, isWord)
    ensures from <= at && StandsAt(text, phrase, at, isWord)
    decreases if from <= |text| then |text| - from + 1 else 0
  {
    if StandsAt(text, phrase, from, isWord) {
      if at != from { FoundStands(text, phrase, from + |phrase|, isWord, at); }
    } else {
      FoundStands(text, phrase, from + 1, isWord, at);
    }
  }

  /** Every occurrence overlaps a match that starts no later. */
  lemma {:induction false} OccurrenceFound(text: string, phrase: string, from: nat, isWord: char -> bool, at: nat)
    returns (m: nat)
    requires phrase != "" && from <= at && StandsAt(text, phrase, at, isWord)
    ensures m in FindFrom(text, phrase, from, isWord) && m <= at < m + |phrase|
    decreases if from <= |text| then |text| - from + 1 else 0
  {
    if StandsAt(text, phrase, from, isWord) {
      if at < from + |phrase| {
        m := from;
      } else {
        m := OccurrenceFound(text, phrase, from + |phrase|, isWord, at);
      }
    } else {
      m := OccurrenceFound(text, phrase, from + 1, isWord, at);
    }
  }

  // ----- Raw and kept mentions -----

  function MentionsOf(phrase: Label, starts: seq<nat>): seq<Mention> {
    seq(|starts|, i requires 0 <= i < |starts| =>
      Mention(phrase.kind, phrase.text, starts[i], starts[i] + |phrase.text|))
  }

  function RawMentions(text: string, table: seq<Label>, answering: bool, isWord: char -> bool): seq<Mention>
    requires ValidTable(table)
  {
    if table == [] then []
    else
      RawMentions(text, table[..|table|-1], answering, isWord)
      + if answering || !table[|table|-1].answerOnly
        then MentionsOf(table[|table|-1], FindFrom(text, table[|table|-1].text, 0, isWord)) else []
  }

  /** Lies in another span that is not its own. */
  predicate OwnedBy(m: Mention, other: Mention) {
    other.start <= m.start && m.end <= other.end && (other.start != m.start || other.end != m.end)
  }

  predicate Owned(m: Mention, raw: seq<Mention>) {
    exists other | other in raw :: OwnedBy(m, other)
  }

  /** The mentions of `some` that no mention of `raw` owns. */
  function Unowned(some: seq<Mention>, raw: seq<Mention>): seq<Mention> {
    if some == [] then []
    else Unowned(some[..|some|-1], raw) + if Owned(some[|some|-1], raw) then [] else [some[|some|-1]]
  }

  /** _catalog_event_type_mentions */
  function Kept(text: string, table: seq<Label>, answering: bool, isWord: char -> bool): seq<Mention>
    requires ValidTable(table)
  {
    var raw := RawMentions(text, table, answering, isWord);
    Unowned(raw, raw)
  }

  lemma {:induction false} UnownedIff(some: seq<Mention>, raw: seq<Mention>, m: Mention)
    ensures m in Unowned(some, raw) <==> m in some && !Owned(m, raw)
  {
    if some != [] {
      UnownedIff(some[..|some|-1], raw, m);
      assert some == some[..|some|-1] + [some[|some|-1]];
    }
  }

  lemma {:induction false} RawIff(text: string, table: seq<Label>, answering: bool, isWord: char -> bool, m: Mention)
    requires ValidTable(table)
    ensures m in RawMentions(text, table, answering, isWord) <==>
              exists l :: l in table && (answering || !l.answerOnly) && m.kind == l.kind && m.text == l.text
                          && m.start in FindFrom(text, l.text, 0, isWord) && m.end == m.start + |l.text|
  {
    if table != [] {
      var front, last := table[..|table|-1], table[|table|-1];
      RawIff(text, front, answering, isWord, m);
      assert table == front + [last];
      assert m in MentionsOf(last, FindFrom(text, last.text, 0, isWord)) <==>
          m.kind == last.kind && m.text == last.text && m.start in FindFrom(text, last.text, 0, isWord)
          && m.end == m.start + |last.text| by {
        var starts := FindFrom(text, last.text, 0, isWord);
        if m.kind == last.kind && m.text == last.text && m.start in starts && m.end == m.start + |last.text| {
          var i :| 0 <= i < |starts| && starts[i] == m.start;
          assert MentionsOf(last, starts)[i] == m;
        }
      }
    }
  }

  // ----- Maximality -----

  /** Every raw mention lies in a kept one: a longer phrase owns its span, and nothing else is lost. */
  lemma {:induction false} EveryMentionIsCovered(raw: seq<Mention>, m: Mention, limit: nat) returns (k: Mention)
    requires m in raw && forall o | o in raw :: o.start <= o.end <= limit
    ensures k in Unowned(raw, raw) && k.start <= m.start && m.end <= k.end
    decreases limit - (m.end - m.start)
  {
    UnownedIff(raw, raw, m);
    if Owned(m, raw) {
      var other :| other in raw && OwnedBy(m, other);
      k := EveryMentionIsCovered(raw, other, limit);
    } else {
      k := m;
    }
  }

  lemma RawBounds(text: string, table: seq<Label>, answering: bool, isWord: char -> bool)
    requires ValidTable(table)
    ensures forall m | m in RawMentions(text, table, answering, isWord) ::
              m.start < m.end <= |text| && StandsAt(text, m.text, m.start, isWord) && m.end == m.start + |m.text|
  {
    forall m | m in RawMentions(text, table, answering, isWord)
      ensures m.start < m.end <= |text| && StandsAt(text, m.text, m.start, isWord) && m.end == m.start + |m.text|
    {
      RawIff(text, table, answering, isWord, m);
      FoundStands(text, m.text, 0, isWord, m.start);
    }
  }

  /** The kept mentions are raw ones, none lies strictly inside a raw one, and every raw one lies inside
      a kept one. */
  lemma KeptAreTheMaximal(text: string, table: seq<Label>, answering: bool, isWord: char -> bool)
    requires ValidTable(table)
    ensures var raw, kept := RawMentions(text, table, answering, isWord), Kept(text, table, answering, isWord);
            && (forall k | k in kept :: k in raw && forall o | o in raw :: !OwnedBy(k, o))
            && (forall m | m in raw :: exists k :: k in kept && k.start <= m.start && m.end <= k.end)
  {
    var raw, kept := RawMentions(text, table, answering, isWord), Kept(text, table, answering, isWord);
    RawBounds(text, table, answering, isWord);
    forall k | k in kept ensures k in raw && forall o | o in raw :: !OwnedBy(k, o) { UnownedIff(raw, raw, k); }
    forall m | m in raw ensures exists k :: k in kept && k.start <= m.start && m.end <= k.end {
      var k := EveryMentionIsCovered(raw, m, |text|);
    }
  }

  predicate InForce(l: Label, table: seq<Label>, answering: bool) {
    l in table && (answering || !l.answerOnly)
  }

  lemma OccurrenceIsMentioned(text: string, table: seq<Label>, answering: bool, isWord: char -> bool, l: Label, at: nat)
    requires ValidTable(table) && InForce(l, table, answering) && StandsAt(text, l.text, at, isWord)
    ensures RawMentions(text, table, answering, isWord) != []
  {
    var m := OccurrenceFound(text, l.text, 0, isWord, at);
    RawIff(text, table, answering, isWord, Mention(l.kind, l.text, m, m + |l.text|));
  }

  lemma MentionStands(text: string, table: seq<Label>, answering: bool, isWord: char -> bool, m: Mention)
    returns (l: Label)
    requires ValidTable(table) && m in RawMentions(text, table, answering, isWord)
    ensures InForce(l, table, answering) && StandsAt(text, l.text, m.start, isWord)
  {
    RawIff(text, table, answering, isWord, m);
    l :| l in table && (answering || !l.answerOnly) && m.text == l.text && m.start in FindFrom(text, l.text, 0, isWord);
    FoundStands(text, l.text, 0, isWord, m.start);
  }

  /** Nothing is kept exactly when no label in force stands anywhere in the text. */
  lemma KeptEmptyIff(text: string, table: seq<Label>, answering: bool, isWord: char -> bool)
    requires ValidTable(table)
    ensures Kept(text, table, answering, isWord) == [] <==>
            forall l, at: nat | InForce(l, table, answering) :: !StandsAt(text, l.text, at, isWord)
  {
    var raw, kept := RawMentions(text, table, answering, isWord), Kept(text, table, answering, isWord);
    KeptAreTheMaximal(text, table, answering, isWord);
    if raw != [] { assert raw[0] in raw; }
    if kept != [] {
      assert kept[0] in kept;
      var l := MentionStands(text, table, answering, isWord, kept[0]);
    } else {
      forall l, at: nat | InForce(l, table, answering) ensures !StandsAt(text, l.text, at, isWord) {
        if StandsAt(text, l.text, at, isWord) { OccurrenceIsMentioned(text, table, answering, isWord, l, at); }
      }
    }
  }

  // ----- Resolution -----

  function Kinds(ms: seq<Mention>): set<EventType> {
    set m | m in ms :: m.kind
  }

  /** The key of max: longer first, then earlier. */
  predicate Better(a: Mention, b: Mention) {
    a.end - a.start > b.end - b.start || (a.end - a.start == b.end - b.start && a.start < b.start)
  }

  function Best(ms: seq<Mention>): (m: Mention)
    requires ms != []
    ensures m in ms && forall o | o in ms :: !Better(o, m)
  {
    if |ms| == 1 then ms[0]
    else
      var b := Best(ms[..|ms|-1]);
      assert ms == ms[..|ms|-1] + [ms[|ms|-1]];
      if Better(ms[|ms|-1], b) then ms[|ms|-1] else b
  }

  /** resolve_catalog_event_type_match */
  function ResolveMatch(text: string, table: seq<Label>, answering: bool, isWord: char -> bool): Option<Mention>
    requires ValidTable(table)
  {
    var kept := Kept(text, table, answering, isWord);
    if |Kinds(kept)| != 1 || kept == [] then None else Some(Best(kept))
  }

  /** resolve_catalog_event_type_label: the dictionary of labels, where the last entry wins. */
  function ResolveLabel(text: string, table: seq<Label>): Option<EventType> {
    if text == "" || table == [] then None
    else if table[|table|-1].text == text then Some(table[|table|-1].kind)
    else ResolveLabel(text, table[..|table|-1])
  }

  lemma {:induction false} LabelFound(text: string, table: seq<Label>) returns (l: Label)
    requires ResolveLabel(text, table).Some?
    ensures l in table && l.text == text && l.kind == ResolveLabel(text, table).value && text != ""
  {
    if table[|table|-1].text == text {
      l := table[|table|-1];
    } else {
      l := LabelFound(text, table[..|table|-1]);
    }
  }

  /** A message that is exactly a label resolves to that label's type in answering mode, whatever other
      labels it contains. */
  lemma AnsweringAgreesWithLabel(text: string, table: seq<Label>, isWord: char -> bool)
    requires ValidTable(table) && ResolveLabel(text, table).Some?
    ensures ResolveMatch(text, table, true, isWord).Some?
    ensures ResolveMatch(text, table, true, isWord).value.kind == ResolveLabel(text, table).value
    ensures ResolveMatch(text, table, true, isWord).value.text == text
  {
    var raw, kept := RawMentions(text, table, true, isWord), Kept(text, table, true, isWord);
    var l := LabelFound(text, table);
    var whole := Mention(l.kind, text, 0, |text|);
    assert text[0..|text|] == text && StandsAt(text, text, 0, isWord);
    assert FindFrom(text, text, 0, isWord)[0] == 0;
    RawIff(text, table, true, isWord, whole);
    RawBounds(text, table, true, isWord);
    UnownedIff(raw, raw, whole);
    forall k | k in kept ensures k.kind == l.kind && k.text == text {
      UnownedIff(raw, raw, k);
      assert !OwnedBy(k, whole);
      assert k.start == 0 && k.end == |text|;
      RawIff(text, table, true, isWord, k);
    }
    assert Kinds(kept) == {l.kind} by { assert whole in kept; }
  }

  /** resolve_fixed_price_information_match */
  function ResolveFixedPrice(text: string, table: seq<Label>, isWord: char -> bool): Option<Mention>
    requires ValidTable(table)
  {
    var kept := Kept(text, table, false, isWord);
    var proposals := OfKind(kept, Proposal);
    if Kinds(kept) - {Proposal, RomanticDinner} != {} || proposals == [] then None else Some(Best(proposals))
  }

  function OfKind(ms: seq<Mention>, kind: EventType): seq<Mention> {
    if ms == [] then []
    else OfKind(ms[..|ms|-1], kind) + if ms[|ms|-1].kind == kind then [ms[|ms|-1]] else []
  }

  lemma {:induction false} OfKindIff(ms: seq<Mention>, kind: EventType, m: Mention)
    ensures m in OfKind(ms, kind) <==> m in ms && m.kind == kind
  {
    if ms != [] {
      OfKindIff(ms[..|ms|-1], kind, m);
      assert ms == ms[..|ms|-1] + [ms[|ms|-1]];
    }
  }

  /** Fixed-price information is about a proposal exactly when one is mentioned and nothing but romantic
      dinners beside it. */
  lemma FixedPriceIff(text: string, table: seq<Label>, isWord: char -> bool)
    requires ValidTable(table)
    ensures var kept := Kept(text, table, false, isWord);
            ResolveFixedPrice(text, table, isWord).Some? <==>
              (exists k :: k in kept && k.kind == Proposal)
              && forall k | k in kept :: k.kind == Proposal || k.kind == RomanticDinner
  {
    var kept := Kept(text, table, false, isWord);
    var proposals := OfKind(kept, Proposal);
    forall m ensures m in proposals <==> m in kept && m.kind == Proposal { OfKindIff(kept, Proposal, m); }
    if proposals != [] { assert proposals[0] in proposals; }
    OnlyThese(kept);
  }

  lemma OnlyThese(ms: seq<Mention>)
    ensures Kinds(ms) - {Proposal, RomanticDinner} == {} <==>
            forall m | m in ms :: m.kind == Proposal || m.kind == RomanticDinner
  {
    forall m | m in ms ensures m.kind in Kinds(ms) { }
    if Kinds(ms) - {Proposal, RomanticDinner} != {} {
      var kind :| kind in Kinds(ms) - {Proposal, RomanticDinner};
      var m :| m in ms && m.kind == kind;
    } else {
      forall m | m in ms ensures m.kind == Proposal || m.kind == RomanticDinner {
        assert m.kind in Kinds(ms);
        assert m.kind !in Kinds(ms) - {Proposal, RomanticDinner};
      }
    }
  }

  /** Whenever the general resolver says PROPOSAL, the fixed-price resolver says so too. */
  lemma ProposalIsFixedPrice(text: string, table: seq<Label>, isWord: char -> bool)
    requires ValidTable(table)
    requires ResolveMatch(text, table, false, isWord).Some?
    requires ResolveMatch(text, table, false, isWord).value.kind == Proposal
    ensures ResolveFixedPrice(text, table, isWord).Some?
  {
    var kept := Kept(text, table, false, isWord);
    SingleKind(kept, Best(kept));
    FixedPriceIff(text, table, isWord);
  }

  lemma SingleKind(ms: seq<Mention>, m: Mention)
    requires |Kinds(ms)| == 1 && m in ms
    ensures forall k | k in ms :: k.kind == m.kind
  {
    assert m.kind in Kinds(ms);
    Singleton(Kinds(ms), m.kind);
    forall k | k in ms ensures k.kind == m.kind { assert k.kind in Kinds(ms); }
  }

  /** No mention in the text is longer, and none as long starts earlier. */
  predicate LongestFirst(m: Mention, ms: seq<Mention>) {
    m in ms && forall o | o in ms ::
      o.end - o.start <= m.end - m.start && (o.end - o.start == m.end - m.start ==> m.start <= o.start)
  }

  /** A message resolves exactly when what is kept of it is of one kind, and then to the longest mention, the
      earliest of the longest. */
  lemma ResolvedIff(text: string, table: seq<Label>, answering: bool, isWord: char -> bool)
    requires ValidTable(table)
    ensures var kept, r := Kept(text, table, answering, isWord), ResolveMatch(text, table, answering, isWord);
            && (r.Some? <==> kept != [] && forall a, b | a in kept && b in kept :: a.kind == b.kind)
            && (r.Some? ==> LongestFirst(r.value, kept))
  {
    var kept := Kept(text, table, answering, isWord);
    if kept != [] {
      var m := Best(kept);
      if |Kinds(kept)| == 1 { SingleKind(kept, m); }
      if forall a, b | a in kept && b in kept :: a.kind == b.kind { assert Kinds(kept) == {m.kind}; }
    }
  }

  /** The same for proposals, among the proposals. */
  lemma FixedPriceIsLongest(text: string, table: seq<Label>, isWord: char -> bool)
    requires ValidTable(table) && ResolveFixedPrice(text, table, isWord).Some?
    ensures var kept, m := Kept(text, table, false, isWord), ResolveFixedPrice(text, table, isWord).value;
            && m.kind == Proposal && m in kept
            && forall o | o in kept && o.kind == Proposal ::
                 o.end - o.start <= m.end - m.start && (o.end - o.start == m.end - m.start ==> m.start <= o.start)
  {
    var kept := Kept(text, table, false, isWord);
    forall m ensures m in OfKind(kept, Proposal) <==> m in kept && m.kind == Proposal { OfKindIff(kept, Proposal, m); }
  }
}
