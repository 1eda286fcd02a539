/**
  The accumulators of the assessment: the attempts of the current question set, the attempts
  of the whole interview, and one evaluation per completed set.
 */
module Assessment {
  import opened Wrappers
  import opened Text
  import opened TurnModels
  import opened InterviewModels

  datatype Attempt = Attempt(
    question: Question, answerText: string, signal: Signal, deliveryMetrics: Option<DeliveryMetrics>,
    evidenceIds: seq<string>)

  datatype QualityTrace = QualityTrace(
    kind: QuestionKind, quality: Quality, target: Option<string>, rationale: seq<string>)

  /** The evaluation of a question set, apart from its score and comment. */
  datatype Evaluation = Evaluation(
    questionId: string, topic: string, question: string, summary: string,
    deliveryNote: Option<string>, trace: seq<QualityTrace>, category: Option<string>,
    questionEvidence: seq<string>, answerEvidence: seq<string>)

  datatype Ledger = Ledger(
    current: seq<Attempt>, all: seq<Attempt>, evaluations: seq<Evaluation>,
    chunks: map<string, EvidenceChunk>)

  const EMPTY_LEDGER := Ledger([], [], [], map[])

  // ----- the accumulators as functions -----------------------------------------------------

  function Keep(chunks: map<string, EvidenceChunk>, evidence: seq<EvidenceChunk>): map<string, EvidenceChunk> {
    if evidence == [] then chunks
    else
      var last := evidence[|evidence| - 1];
      Keep(chunks, evidence[..|evidence| - 1])[last.chunkId := last]
  }

  function Ids(evidence: seq<EvidenceChunk>): (ids: seq<string>)
    ensures |ids| == |evidence|
    ensures forall i :: 0 <= i < |ids| ==> ids[i] == evidence[i].chunkId
  {
    seq(|evidence|, i requires 0 <= i < |evidence| => evidence[i].chunkId)
  }

  function AttemptAt(
    q: Question, answerText: string, metrics: Option<DeliveryMetrics>, r: Assessed): Attempt
  {
    Attempt(q, answerText, r.signal, metrics, Ids(r.evidence))
  }

  /** The evidence is kept in any case; an answer that is off topic leaves no other trace. */
  function Assess(l: Ledger, a: Attempt, evidence: seq<EvidenceChunk>): Ledger {
    var kept := l.(chunks := Keep(l.chunks, evidence));
    if a.signal.quality == OffTopic then kept else kept.(current := l.current + [a], all := l.all + [a])
  }

  predicate AnswersMain(a: Attempt, mainId: string) {
    a.question.questionId == mainId && a.question.kind == Main
  }

  /** The first attempt at the main question itself, or the first attempt of the set. */
  function MainAttempt(attempts: seq<Attempt>, mainId: string): (a: Attempt)
    requires attempts != []
    ensures a in attempts
    ensures AnswersMain(a, mainId) || (a == attempts[0] && forall x :: x in attempts ==> !AnswersMain(x, mainId))
  {
    if AnswersMain(attempts[0], mainId) || |attempts| == 1 then attempts[0]
    else
      var rest := MainAttempt(attempts[1..], mainId);
      if AnswersMain(rest, mainId) then rest else attempts[0]
  }

  function TraceOf(a: Attempt): QualityTrace {
    QualityTrace(a.question.kind, a.signal.quality, a.signal.probeTarget, a.signal.rationale)
  }

  function Traces(attempts: seq<Attempt>): (t: seq<QualityTrace>)
    ensures |t| == |attempts|
    ensures forall i :: 0 <= i < |t| ==> t[i] == TraceOf(attempts[i])
  {
    seq(|attempts|, i requires 0 <= i < |attempts| => TraceOf(attempts[i]))
  }

  /** The answers of a set, one per line. */
  function Summary(attempts: seq<Attempt>): string {
    if attempts == [] then ""
    else if |attempts| == 1 then attempts[0].answerText
    else Summary(attempts[..|attempts| - 1]) + "\n" + attempts[|attempts| - 1].answerText
  }

  /** The summary of two lists put together: the first, a line feed, the second. */
  lemma {:induction false} SummaryConcat(a: seq<Attempt>, b: seq<Attempt>)
    requires a != [] && b != []
    ensures Summary(a + b) == Summary(a) + "\n" + Summary(b)
    decreases |b|
  {
    var s, n := a + b, |b| - 1;
    assert s[..|s| - 1] == a + b[..n];
    if n == 0 {
      assert a + b[..n] == a;
    } else {
      SummaryConcat(a, b[..n]);
      assert Summary(a) + "\n" + Summary(b) == Summary(a) + "\n" + Summary(b[..n]) + "\n" + b[n].answerText;
    }
  }

  /** The delivery notes that say something. */
  function Notes(attempts: seq<Attempt>): seq<string> {
    if attempts == [] then []
    else
      var note := attempts[|attempts| - 1].signal.deliveryNote;
      Notes(attempts[..|attempts| - 1]) + if note.Some? && note.value != "" then [note.value] else []
  }

  lemma {:induction false} NotesConcat(a: seq<Attempt>, b: seq<Attempt>)
    ensures Notes(a + b) == Notes(a) + Notes(b)
    decreases |b|
  {
    if b == [] {
      assert a + b == a;
    } else {
      var init := b[..|b| - 1];
      NotesConcat(a, init);
      assert (a + b)[..|a + b| - 1] == a + init;
    }
  }

  function DeliveryNote(attempts: seq<Attempt>): Option<string> {
    if Notes(attempts) == [] then None else Some(Spaced(Distinct(Notes(attempts))))
  }

  function EvidenceLists(attempts: seq<Attempt>): (lists: seq<seq<string>>)
    ensures |lists| == |attempts|
    ensures forall i :: 0 <= i < |lists| ==> lists[i] == attempts[i].evidenceIds
  {
    seq(|attempts|, i requires 0 <= i < |attempts| => attempts[i].evidenceIds)
  }

  function Evaluate(attempts: seq<Attempt>, mainId: string): Evaluation
    requires attempts != []
  {
    var main := MainAttempt(attempts, mainId);
    Evaluation(
      mainId, main.question.topic, main.question.text, Summary(attempts), DeliveryNote(attempts),
      Traces(attempts), main.question.category, main.question.evidenceIds,
      Distinct(Flatten(EvidenceLists(attempts))))
  }

  /** The attempt an evaluation speaks of: the first at the main question itself, or the first. */
  predicate IsSubject(attempts: seq<Attempt>, mainId: string, k: nat) {
    && k < |attempts|
    && (forall i :: 0 <= i < k ==> !(attempts[i].question.questionId == mainId && attempts[i].question.kind == Main))
    && (if attempts[k].question.questionId == mainId && attempts[k].question.kind == Main then true
        else k == 0 && forall i :: 0 <= i < |attempts| ==>
          !(attempts[i].question.questionId == mainId && attempts[i].question.kind == Main))
  }

  lemma {:induction false} SubjectIsMainAttempt(attempts: seq<Attempt>, mainId: string, k: nat)
    requires IsSubject(attempts, mainId, k)
    ensures MainAttempt(attempts, mainId) == attempts[k]
  {
    if k > 0 {
      SubjectIsMainAttempt(attempts[1..], mainId, k - 1);
    } else if !AnswersMain(attempts[0], mainId) {
      forall x | x in attempts ensures !AnswersMain(x, mainId) {}
    }
  }

  /** The notes of a set say something: some attempt has one that is not empty. */
  lemma {:induction false} NotesSay(attempts: seq<Attempt>, note: string)
    ensures note in Notes(attempts)
      <==> note != "" && exists i :: 0 <= i < |attempts| && attempts[i].signal.deliveryNote == Some(note)
  {
    if attempts != [] {
      var n := |attempts| - 1;
      NotesSay(attempts[..n], note);
      assert forall i :: 0 <= i < n ==> attempts[..n][i] == attempts[i];
    }
  }

  lemma {:induction false} FlattenHas<T>(lists: seq<seq<T>>, x: T)
    ensures x in Flatten(lists) <==> exists i :: 0 <= i < |lists| && x in lists[i]
  {
    if lists != [] {
      var n := |lists| - 1;
      FlattenHas(lists[..n], x);
      assert forall i :: 0 <= i < n ==> lists[..n][i] == lists[i];
    }
  }

  /**
    What an evaluation says: topic, text, category and sources of the question it is about; the
    answers and their verdicts, in order; every note and every piece of evidence once.
   */
  lemma {:induction false} EvaluationSays(attempts: seq<Attempt>, mainId: string, k: nat, id: string)
    requires IsSubject(attempts, mainId, k)
    ensures var e, q := Evaluate(attempts, mainId), attempts[k].question;
            && e.questionId == mainId && e.topic == q.topic && e.question == q.text
            && e.category == q.category && e.questionEvidence == q.evidenceIds
            && e.summary == Summary(attempts) && e.trace == Traces(attempts)
            && (id in e.answerEvidence <==>
                  exists i :: 0 <= i < |attempts| && id in attempts[i].evidenceIds)
            && (forall i, j :: 0 <= i < j < |e.answerEvidence| ==> e.answerEvidence[i] != e.answerEvidence[j])
            && (e.deliveryNote.None? <==> Notes(attempts) == [])
            && (e.deliveryNote.Some? ==> e.deliveryNote.value == Spaced(Distinct(Notes(attempts))))
  {
    SubjectIsMainAttempt(attempts, mainId, k);
    FlattenHas(EvidenceLists(attempts), id);
    assert forall i :: 0 <= i < |attempts| ==> EvidenceLists(attempts)[i] == attempts[i].evidenceIds;
  }

  /** A set without an answer is not a set. */
  function CompleteSet(l: Ledger, mainId: string): Ledger {
    if l.current == [] then l
    else l.(current := [], evaluations := l.evaluations + [Evaluate(l.current, mainId)])
  }

  // ----- nothing is lost -------------------------------------------------------------------

  function AllTraces(evaluations: seq<Evaluation>): seq<QualityTrace> {
    if evaluations == [] then []
    else AllTraces(evaluations[..|evaluations| - 1]) + evaluations[|evaluations| - 1].trace
  }

  /** The completed sets: none empty, each evaluated, and together with the current one everything. */
  predicate Balanced(l: Ledger, sets: seq<seq<Attempt>>) {
    && |sets| == |l.evaluations|
    && l.all == Flatten(sets) + l.current
    && (forall i :: 0 <= i < |sets| ==>
          sets[i] != [] && l.evaluations[i] == Evaluate(sets[i], l.evaluations[i].questionId))
  }

  function Completed(l: Ledger, sets: seq<seq<Attempt>>): seq<seq<Attempt>> {
    if l.current == [] then sets else sets + [l.current]
  }

  lemma AssessBalances(l: Ledger, sets: seq<seq<Attempt>>, a: Attempt, evidence: seq<EvidenceChunk>)
    requires Balanced(l, sets)
    ensures Balanced(Assess(l, a, evidence), sets)
  {
  }

  lemma CompletingBalances(l: Ledger, sets: seq<seq<Attempt>>, mainId: string)
    requires Balanced(l, sets)
    ensures Balanced(CompleteSet(l, mainId), Completed(l, sets))
  {
    hide Evaluate, Flatten;
    if l.current != [] {
      FlattenSnoc(sets, l.current);
      EvaluatedFor(l.current, mainId);
      assert Flatten(sets + [l.current]) + [] == Flatten(sets + [l.current]);
    }
  }

  lemma {:induction false} EvaluatedFor(attempts: seq<Attempt>, mainId: string)
    requires attempts != []
    ensures Evaluate(attempts, mainId).questionId == mainId && Evaluate(attempts, mainId).trace == Traces(attempts)
  {
  }

  lemma TracesConcat(a: seq<Attempt>, b: seq<Attempt>)
    ensures Traces(a + b) == Traces(a) + Traces(b)
  {
  }

  lemma NoTraces()
    ensures Traces([]) == []
  {
  }

  lemma {:induction false} SetTraces(sets: seq<seq<Attempt>>, evaluations: seq<Evaluation>)
    requires |sets| == |evaluations|
    requires forall i :: 0 <= i < |sets| ==>
      sets[i] != [] && evaluations[i] == Evaluate(sets[i], evaluations[i].questionId)
    ensures AllTraces(evaluations) == Traces(Flatten(sets))
  {
    hide Evaluate, Traces;
    if sets == [] {
      NoTraces();
    } else {
      var n := |sets| - 1;
      EvaluatedFor(sets[n], evaluations[n].questionId);
      SetTraces(sets[..n], evaluations[..n]);
      TracesConcat(Flatten(sets[..n]), sets[n]);
    }
  }

  /**
    What the report sees is what was answered: the quality traces of all evaluations, followed
    by those of the current set, are the traces of all attempts in order.
   */
  lemma NoAttemptIsLost(l: Ledger, sets: seq<seq<Attempt>>)
    requires Balanced(l, sets)
    ensures AllTraces(l.evaluations) + Traces(l.current) == Traces(l.all)
  {
    SetTraces(sets, l.evaluations);
    TracesConcat(Flatten(sets), l.current);
  }

  // ----- evidence ----------------------------------------------------------------------------

  /** The chunks behind every attempt and every evaluation are kept. */
  predicate Documented(l: Ledger) {
    && (forall i, id :: 0 <= i < |l.all| && id in l.all[i].evidenceIds ==> id in l.chunks)
    && (forall i, id :: 0 <= i < |l.current| && id in l.current[i].evidenceIds ==> id in l.chunks)
    && (forall i, id :: 0 <= i < |l.evaluations| && id in l.evaluations[i].answerEvidence ==> id in l.chunks)
  }

  lemma {:induction false} KeptIds(chunks: map<string, EvidenceChunk>, evidence: seq<EvidenceChunk>)
    ensures Keep(chunks, evidence).Keys == chunks.Keys + set id | id in Ids(evidence)
    ensures forall id :: id in Ids(evidence) ==> Keep(chunks, evidence)[id].chunkId == id
  {
    if evidence != [] {
      var n := |evidence| - 1;
      KeptIds(chunks, evidence[..n]);
      assert Ids(evidence) == Ids(evidence[..n]) + [evidence[n].chunkId];
    }
  }

  lemma AssessDocuments(
    l: Ledger, q: Question, answerText: string, metrics: Option<DeliveryMetrics>, r: Assessed)
    requires Documented(l)
    ensures Documented(Assess(l, AttemptAt(q, answerText, metrics, r), r.evidence))
  {
    KeptIds(l.chunks, r.evidence);
  }

  lemma CompletingDocuments(l: Ledger, mainId: string)
    requires Documented(l)
    ensures Documented(CompleteSet(l, mainId))
  {
    if l.current != [] {
      forall id | id in Evaluate(l.current, mainId).answerEvidence ensures id in l.chunks {
        FlattenHas(EvidenceLists(l.current), id);
      }
    }
  }

  // ----- the agent -------------------------------------------------------------------------

  class AssessmentAgent {
    var evaluations: seq<Evaluation>
    var currentAttempts: seq<Attempt>
    var allAttempts: seq<Attempt>
    var evidenceChunks: map<string, EvidenceChunk>

    function State(): Ledger
      reads this
    {
      Ledger(currentAttempts, allAttempts, evaluations, evidenceChunks)
    }

    constructor ()
      ensures State() == EMPTY_LEDGER
    {
      evaluations := [];
      currentAttempts := [];
      allAttempts := [];
      evidenceChunks := map[];
    }

    method KeepChunks(evidence: seq<EvidenceChunk>)
      modifies `evidenceChunks
      ensures evidenceChunks == Keep(old(evidenceChunks), evidence)
    {
      for i := 0 to |evidence|
        invariant evidenceChunks == Keep(old(evidenceChunks), evidence[..i])
      {
        assert evidence[..i + 1][..i] == evidence[..i];
        evidenceChunks := evidenceChunks[evidence[i].chunkId := evidence[i]];
      }
      assert evidence[..|evidence|] == evidence;
    }

    /** Records the answer the judge gave its verdict on, unless it is off topic. */
    method Evaluate(question: Question, answerText: string, metrics: Option<DeliveryMetrics>, r: Assessed)
      modifies this
      ensures State() == Assess(old(State()), AttemptAt(question, answerText, metrics, r), r.evidence)
    {
      KeepChunks(r.evidence);
      if r.signal.quality == OffTopic { return; }
      var attempt := Attempt(question, answerText, r.signal, metrics, Ids(r.evidence));
      currentAttempts := currentAttempts + [attempt];
      allAttempts := allAttempts + [attempt];
    }

    method FindMainAttempt(mainId: string) returns (a: Attempt)
      requires currentAttempts != []
      ensures a == MainAttempt(currentAttempts, mainId)
    {
      for i := 0 to |currentAttempts|
        invariant forall j :: 0 <= j < i ==> !AnswersMain(currentAttempts[j], mainId)
      {
        if AnswersMain(currentAttempts[i], mainId) {
          FirstIsMain(currentAttempts, mainId, i);
          return currentAttempts[i];
        }
      }
      a := currentAttempts[0];
    }

    method BuildAnswerContext() returns (summary: string)
      ensures summary == Summary(currentAttempts)
    {
      summary := "";
      for i := 0 to |currentAttempts|
        invariant summary == Summary(currentAttempts[..i])
      {
        assert currentAttempts[..i + 1][..i] == currentAttempts[..i];
        summary := if i == 0 then currentAttempts[0].answerText
                   else summary + "\n" + currentAttempts[i].answerText;
      }
      assert currentAttempts[..|currentAttempts|] == currentAttempts;
    }

    method CompleteQuestionSet(mainId: string)
      modifies this
      ensures State() == CompleteSet(old(State()), mainId)
    {
      if currentAttempts == [] { return; }
      var main := FindMainAttempt(mainId);
      var summary := BuildAnswerContext();
      evaluations := evaluations + [Evaluation(
        mainId, main.question.topic, main.question.text, summary, DeliveryNote(currentAttempts),
        Traces(currentAttempts), main.question.category, main.question.evidenceIds,
        Distinct(Flatten(EvidenceLists(currentAttempts))))];
      currentAttempts := [];
    }
  }

  lemma {:induction false} FirstIsMain(attempts: seq<Attempt>, mainId: string, i: nat)
    requires i < |attempts| && AnswersMain(attempts[i], mainId)
    requires forall j :: 0 <= j < i ==> !AnswersMain(attempts[j], mainId)
    ensures MainAttempt(attempts, mainId) == attempts[i]
  {
    if i > 0 {
      FirstIsMain(attempts[1..], mainId, i - 1);
    }
  }
}
