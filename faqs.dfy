/** The FAQ extractor of scraper.py. Question nodes are paired with a
    compacted list of answers: a question without a next sibling adds no
    answer, so every later question is paired with the answer one place
    further along. The model keeps that pairing exactly as written. */
module Faqs {
  import opened Wrappers
  import opened Seqs
  import opened Fetch

  datatype Faq = Faq(question: string, answer: string)

  const FaqPaths: seq<string> := ["pages/faq", "faq", "pages/faqs"]

  /** The answers loop: the sibling text of each question that has a
      sibling, in order; questions without one contribute nothing. */
  function Answers(qs: seq<Question>): (r: seq<string>)
    ensures |r| <= |qs|
    decreases |qs|
  {
    if qs == [] then []
    else
      var prev := Answers(qs[..|qs| - 1]);
      match qs[|qs| - 1].sibling
      case None => prev
      case Some(a) => prev + [a]
  }

  /** `answers[i] if i < len(answers) else ""` */
  function AnswerAt(answers: seq<string>, i: nat): string {
    if i < |answers| then answers[i] else ""
  }

  /** The pairs emitted for the first `n` questions: question `i`, when its
      text is non-empty, with the `i`-th compacted answer. */
  function PairsUpTo(qs: seq<Question>, answers: seq<string>, n: nat): (r: seq<Faq>)
    requires n <= |qs|
    ensures |r| <= n
    ensures forall f :: f in r ==> f.question != ""
  {
    if n == 0 then []
    else
      var q := qs[n - 1];
      PairsUpTo(qs, answers, n - 1) + if q.text != "" then [Faq(q.text, AnswerAt(answers, n - 1))] else []
  }

  /** The pairs one page gives. */
  function PageFaqs(qs: seq<Question>): seq<Faq> {
    PairsUpTo(qs, Answers(qs), |qs|)
  }

  /** The pairs candidate path `k` gives; an absent page gives none. */
  function FaqCandidate(w: Web, base: string, k: nat): seq<Faq>
    requires k < |FaqPaths|
  {
    match FetchPage(w, base, FaqPaths[k])
    case None => []
    case Some(doc) => PageFaqs(doc.questions)
  }

  function FaqCandidates(w: Web, base: string): (r: seq<seq<Faq>>)
    ensures |r| == |FaqPaths|
    ensures forall k :: 0 <= k < |FaqPaths| ==> r[k] == FaqCandidate(w, base, k)
  {
    seq(|FaqPaths|, k requires 0 <= k < |FaqPaths| => FaqCandidate(w, base, k))
  }

  /** `extract_faqs`, as a value: the pairs of the first candidate path that
      yields at least one pair, and no pair if none does. */
  function Faqs(w: Web, base: string): (r: seq<Faq>)
    ensures var b := NormalizeUrl(base);
      (r == [] && forall k :: 0 <= k < |FaqPaths| ==> FaqCandidate(w, b, k) == [])
      || (exists i :: 0 <= i < |FaqPaths| && r == FaqCandidate(w, b, i) != []
            && forall k :: 0 <= k < i ==> FaqCandidate(w, b, k) == [])
  {
    FirstNonEmpty(FaqCandidates(w, NormalizeUrl(base)), [], [])
  }

  /** The two loops over one page's question nodes: first the compacted
      answers, then the pairs. */
  method PairQuestions(questions: seq<Question>) returns (faqs: seq<Faq>)
    ensures faqs == PageFaqs(questions)
  {
    var answers: seq<string> := [];
    for i := 0 to |questions|
      invariant answers == Answers(questions[..i])
    {
      assert questions[..i + 1][..i] == questions[..i];
      var nxt := questions[i].sibling;
      if nxt.Some? {
        answers := answers + [nxt.value];
      }
    }
    assert questions[..|questions|] == questions;
    faqs := [];
    for i := 0 to |questions|
      invariant faqs == PairsUpTo(questions, answers, i)
    {
      var qq := questions[i].text;
      var aa := if i < |answers| then answers[i] else "";
      if qq != "" {
        faqs := faqs + [Faq(qq, aa)];
      }
    }
  }

  /** `extract_faqs`: tries the candidate paths in order and stops at the
      first that yields a pair. */
  method ExtractFaqs(w: Web, base: string) returns (faqs: seq<Faq>)
    ensures faqs == Faqs(w, base)
  {
    var b := NormalizeUrl(base);
    ghost var cands := FaqCandidates(w, b);
    faqs := [];
    var i := 0;
    while i < |FaqPaths|
      invariant 0 <= i <= |FaqPaths|
      invariant faqs == []
      invariant FirstNonEmpty(cands[i..], [], []) == Faqs(w, base)
    {
      assert cands[i..] == [cands[i]] + cands[i + 1..];
      var soup := FetchPage(w, b, FaqPaths[i]);
      if soup.Some? {
        faqs := PairQuestions(soup.value.questions);
        if faqs != [] {
          break;
        }
      }
      i := i + 1;
    }
  }

  // ---------------- Properties ----------------

  /** The number of questions among the first `n` whose text is non-empty. */
  function Asked(qs: seq<Question>, n: nat): nat
    requires n <= |qs|
  {
    if n == 0 then 0 else Asked(qs, n - 1) + if qs[n - 1].text != "" then 1 else 0
  }

  /** Pairs only grow: the pairs for `n` questions start with the pairs
      for fewer, and there is one pair per question with text. */
  lemma {:induction false} PairsGrow(qs: seq<Question>, answers: seq<string>, m: nat, n: nat)
    requires m <= n <= |qs|
    ensures |PairsUpTo(qs, answers, n)| == Asked(qs, n)
    ensures PairsUpTo(qs, answers, m) <= PairsUpTo(qs, answers, n)
    decreases n
  {
    if n > 0 {
      if m == n {
        PairsGrow(qs, answers, n - 1, n - 1);
      } else {
        PairsGrow(qs, answers, m, n - 1);
      }
    }
  }

  /** Question `i`, when its text is non-empty, is emitted as the pair at
      position `Asked(qs, i)`, and its answer is the `i`-th entry of the
      compacted answers, or "" past their end. Each emitted pair has a
      non-empty question. */
  lemma PairOfQuestion(qs: seq<Question>, i: nat)
    requires i < |qs| && qs[i].text != ""
    ensures Asked(qs, i) < |PageFaqs(qs)|
    ensures PageFaqs(qs)[Asked(qs, i)] == Faq(qs[i].text, AnswerAt(Answers(qs), i))
  {
    PairsGrow(qs, Answers(qs), i + 1, |qs|);
    PairsGrow(qs, Answers(qs), i, i);
  }

  /** When every question has a sibling the compacted answers line up with
      the questions: each question gets its own sibling's text. */
  lemma {:induction false} AnswersAligned(qs: seq<Question>)
    requires forall q :: q in qs ==> q.sibling.Some?
    ensures |Answers(qs)| == |qs|
    ensures forall i :: 0 <= i < |qs| ==> Answers(qs)[i] == qs[i].sibling.value
    decreases |qs|
  {
    if qs != [] {
      var prev := qs[..|qs| - 1];
      assert forall q :: q in prev ==> q in qs;
      AnswersAligned(prev);
      assert qs[|qs| - 1] in qs;
    }
  }

  /** The number of questions among the first `n` that have a sibling. */
  function Sibled(qs: seq<Question>, n: nat): nat
    requires n <= |qs|
  {
    if n == 0 then 0 else Sibled(qs, n - 1) + if qs[n - 1].sibling.Some? then 1 else 0
  }

  /** The compacted answers are, in order, exactly the sibling texts of the
      questions that have one: there is one answer per such question, and
      the sibling of question `i` sits at the position that counts the
      earlier questions with a sibling. */
  lemma {:induction false} AnswersCompact(qs: seq<Question>, n: nat)
    requires n <= |qs|
    ensures |Answers(qs[..n])| == Sibled(qs, n)
    ensures forall i :: 0 <= i < n && qs[i].sibling.Some? ==>
      Sibled(qs, i) < |Answers(qs[..n])| && Answers(qs[..n])[Sibled(qs, i)] == qs[i].sibling.value
  {
    if n > 0 {
      AnswersCompact(qs, n - 1);
      assert qs[..n][..n - 1] == qs[..n - 1];
      assert qs[..n][n - 1] == qs[n - 1];
    }
  }

  /** A question without a sibling shifts the answers: with a first
      question that has no sibling and a second whose sibling reads "A2",
      the first question is paired with "A2" and the second with "". */
  lemma MissingSiblingShiftsAnswers()
    ensures PageFaqs([Question("Q1", None), Question("Q2", Some("A2"))])
         == [Faq("Q1", "A2"), Faq("Q2", "")]
  {
    var qs := [Question("Q1", None), Question("Q2", Some("A2"))];
    assert qs[..1] == [Question("Q1", None)];
    assert Answers(qs[..1]) == [];
    assert Answers(qs) == ["A2"];
    assert PairsUpTo(qs, ["A2"], 1) == [Faq("Q1", "A2")];
    assert PairsUpTo(qs, ["A2"], 2) == [Faq("Q1", "A2"), Faq("Q2", "")];
  }
}
