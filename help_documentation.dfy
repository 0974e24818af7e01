/**
 * The Help & Documentation page: FAQ sections filtered by a case-insensitive
 * search, and a record of which questions are expanded.
 */
module HelpDocumentation {
  import Seqs
  import Text

  /** An answer is a paragraph or a numbered list of steps. */
  datatype Answer = Prose(text: string) | Steps(items: seq<string>)

  datatype Faq = Faq(question: string, answer: Answer)

  /** One entry of `faqData`: the section's key and its questions. */
  datatype Section = Section(name: string, faqs: seq<Faq>)

  /** The test of one question, against the already lower-cased search. */
  predicate FaqMatches(f: Faq, searchLower: string) {
    || Text.Contains(Text.Lower(f.question), searchLower)
    || match f.answer
       case Steps(items) => exists item :: item in items && Text.Contains(Text.Lower(item), searchLower)
       case Prose(text) => Text.Contains(Text.Lower(text), searchLower)
  }

  /** A section is shown when some question in it matches. */
  predicate SectionMatches(s: Section, searchTerm: string) {
    exists f :: f in s.faqs && FaqMatches(f, Text.Lower(searchTerm))
  }

  function SectionMatchesSearch(searchTerm: string): Section -> bool {
    s => SectionMatches(s, searchTerm)
  }

  /** `filterFAQs(faqData)`: the sections to show, in `faqData` order, each with all its questions. */
  function FilterFaqs(sections: seq<Section>, searchTerm: string): seq<Section> {
    Seqs.Filter(sections, SectionMatchesSearch(searchTerm))
  }

  /**
   * The shown sections keep their order, and a section is shown exactly when
   * one of its questions, or its answer or one of its steps, contains the
   * search ignoring case.
   */
  lemma FilterFaqsSpec(sections: seq<Section>, searchTerm: string)
    ensures Seqs.IsSubsequence(FilterFaqs(sections, searchTerm), sections)
    ensures forall s :: s in FilterFaqs(sections, searchTerm) <==>
      s in sections && exists f :: f in s.faqs && FaqMatches(f, Text.Lower(searchTerm))
  {
    Seqs.FilterIsSubsequence(sections, SectionMatchesSearch(searchTerm));
  }

  /** With an empty search every section that has a question is shown, and no other. */
  lemma EmptySearchShowsAll(sections: seq<Section>)
    ensures FilterFaqs(sections, "") == Seqs.Filter(sections, (s: Section) => s.faqs != [])
  {
    forall s | s in sections
      ensures SectionMatchesSearch("")(s) == (s.faqs != [])
    {
      if s.faqs != [] {
        Text.ContainsEmpty(Text.Lower(s.faqs[0].question));
        assert FaqMatches(s.faqs[0], Text.Lower(""));
      }
    }
    Seqs.FilterCongruent(sections, SectionMatchesSearch(""), (s: Section) => s.faqs != []);
  }

  /** Searches that differ only in the case of their letters show the same sections. */
  lemma SearchIgnoresCase(sections: seq<Section>, a: string, b: string)
    requires Text.Lower(a) == Text.Lower(b)
    ensures FilterFaqs(sections, a) == FilterFaqs(sections, b)
  {
    Seqs.FilterCongruent(sections, SectionMatchesSearch(a), SectionMatchesSearch(b));
  }

  /** In particular, searching for the lower-cased term shows what the term shows. */
  lemma LowerCaseSearchIsSame(sections: seq<Section>, a: string)
    ensures FilterFaqs(sections, Text.Lower(a)) == FilterFaqs(sections, a)
  {
    Text.LowerIdempotent(a);
    SearchIgnoresCase(sections, Text.Lower(a), a);
  }

  /** The key of a question in `openFAQs`: `` `${section}-${index}` ``. */
  function FaqKey(section: string, index: nat): string {
    section + "-" + Text.NatToString(index)
  }

  /** Different questions have different keys, whatever the section names hold. */
  lemma FaqKeyInjective(s1: string, i1: nat, s2: string, i2: nat)
    requires FaqKey(s1, i1) == FaqKey(s2, i2)
    ensures s1 == s2 && i1 == i2
  {
    var k1, k2 := Text.NatToString(i1), Text.NatToString(i2);
    var key := FaqKey(s1, i1);
    assert key == s1 + ['-'] + k1 && key == s2 + ['-'] + k2;
    TrailingDigitsOfKey(s1, k1);
    TrailingDigitsOfKey(s2, k2);
    assert k1 == key[|key| - |k1|..] == k2;
    assert s1 == key[..|s1|] == s2;
    Text.NatToStringInjective(i1, i2);
  }

  /** The number of decimal digits at the end of `s`. */
  function TrailingDigits(s: string): (n: nat)
    ensures n <= |s|
  {
    if s == [] || !Text.IsDigit(s[|s| - 1]) then 0 else 1 + TrailingDigits(s[..|s| - 1])
  }

  /** A key ends in exactly the digits of its index, since a dash comes before them. */
  lemma {:induction false} TrailingDigitsOfKey(s: string, k: string)
    requires forall j :: 0 <= j < |k| ==> Text.IsDigit(k[j])
    ensures TrailingDigits(s + ['-'] + k) == |k|
    decreases |k|
  {
    var key := s + ['-'] + k;
    if k != [] {
      assert key[..|key| - 1] == s + ['-'] + k[..|k| - 1];
      TrailingDigitsOfKey(s, k[..|k| - 1]);
    }
  }

  /** Whether the question is expanded; a key never set reads as closed. */
  predicate IsOpen(openFaqs: map<string, bool>, section: string, index: nat) {
    FaqKey(section, index) in openFaqs && openFaqs[FaqKey(section, index)]
  }

  /** The map after `toggleFAQ(section, index)`. */
  function Toggle(openFaqs: map<string, bool>, section: string, index: nat): map<string, bool> {
    openFaqs[FaqKey(section, index) := !IsOpen(openFaqs, section, index)]
  }

  /** Toggling opens a closed question and closes an open one, and touches no other question. */
  lemma ToggleSpec(openFaqs: map<string, bool>, section: string, index: nat, other: string, j: nat)
    ensures IsOpen(Toggle(openFaqs, section, index), section, index) == !IsOpen(openFaqs, section, index)
    ensures (other, j) != (section, index) ==>
      IsOpen(Toggle(openFaqs, section, index), other, j) == IsOpen(openFaqs, other, j)
  {
    if (other, j) != (section, index) && FaqKey(other, j) == FaqKey(section, index) {
      FaqKeyInjective(other, j, section, index);
    }
  }

  /** Toggling the same question twice restores every question's state. */
  lemma ToggleTwice(openFaqs: map<string, bool>, section: string, index: nat, other: string, j: nat)
    ensures IsOpen(Toggle(Toggle(openFaqs, section, index), section, index), other, j) == IsOpen(openFaqs, other, j)
  {
    ToggleSpec(openFaqs, section, index, other, j);
    ToggleSpec(Toggle(openFaqs, section, index), section, index, other, j);
  }

  /** The page's state: the search box and the expanded questions. */
  class Page {
    var searchTerm: string
    var openFaqs: map<string, bool>

    constructor()
      ensures searchTerm == "" && openFaqs == map[]
    {
      searchTerm := "";
      openFaqs := map[];
    }

    /** Typing in the search box. */
    method SetSearchTerm(term: string)
      modifies this
      ensures searchTerm == term && openFaqs == old(openFaqs)
    {
      searchTerm := term;
    }

    /** `toggleFAQ`: flips the question's entry; the search is kept. */
    method ToggleFaq(section: string, index: nat)
      modifies this
      ensures openFaqs == Toggle(old(openFaqs), section, index)
      ensures searchTerm == old(searchTerm)
    {
      var key := FaqKey(section, index);
      openFaqs := openFaqs[key := !(key in openFaqs && openFaqs[key])];
    }

    /** The sections rendered for the current search. */
    function Visible(faqData: seq<Section>): seq<Section>
      reads this
    {
      FilterFaqs(faqData, searchTerm)
    }
  }
}
