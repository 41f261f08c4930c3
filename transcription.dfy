/**
 * The transcription view: accepting an audio file, saving the edited
 * transcription into the current project, and generating study content
 * (two flashcards and one quiz) from it.
 *
 * The delayed mock transcription and the toasts are outside the model; the
 * outcome of each handler is returned instead of shown.
 */
module TranscriptionView {
  import opened Domain
  import AppStore
  import Text

  /** The MIME check of `handleFileUpload`. */
  predicate IsAudioType(mime: string) {
    Text.StartsWith(mime, "audio/")
  }

  datatype UploadOutcome = NoFile | TranscriptionScheduled | NotAudio

  /** What `handleFileUpload` does with the first chosen file, given by its MIME type. */
  function HandleFileUpload(fileType: Option<string>): (r: UploadOutcome)
    ensures r == NoFile <==> fileType.None?
    ensures r == TranscriptionScheduled <==> fileType.Some? && |fileType.value| >= 6 && fileType.value[..6] == "audio/"
    ensures r == NotAudio <==> fileType.Some? && !IsAudioType(fileType.value)
  {
    match fileType
    case None => NoFile
    case Some(mime) => if IsAudioType(mime) then TranscriptionScheduled else NotAudio
  }

  const Card1Question := "Qu'est-ce que la photosynthèse ?"
  const Card1Answer := "Un processus biologique qui permet aux plantes de convertir l'énergie lumineuse en énergie chimique."
  const Card2Question := "Quelles sont les deux phases principales de la photosynthèse ?"
  const Card2Answer := "Les réactions photochimiques (phase claire) et le cycle de Calvin (phase sombre)."
  const QuizTitle := "Quiz sur la photosynthèse"
  const QuestionText := "Où se déroule principalement la photosynthèse ?"
  const QuestionOptions := ["Dans les mitochondries", "Dans les chloroplastes", "Dans le noyau", "Dans les vacuoles"]
  const QuestionExplanation := "La photosynthèse se déroule principalement dans les chloroplastes des cellules végétales."

  /** The two flashcards `generateContent` adds, with freshly minted ids. */
  function MockFlashcards(id1: string, id2: string): (r: seq<Flashcard>)
    ensures |r| == 2 && r[0].id == id1 && r[1].id == id2
  {
    [ Flashcard(id1, Card1Question, Card1Answer, Easy, ["biologie", "photosynthèse"]),
      Flashcard(id2, Card2Question, Card2Answer, Medium, ["biologie", "photosynthèse", "phases"]) ]
  }

  /** The one-question quiz `generateContent` adds, not yet taken; its answer key is a valid option. */
  function MockQuiz(quizId: string, questionId: string): (q: Quiz)
    ensures q.id == quizId && |q.questions| == 1 && q.score.None? && q.completedAt.None?
    ensures forall x :: x in q.questions ==> |x.options| == 4 && 0 <= x.correctAnswer < |x.options|
  {
    Quiz(quizId, QuizTitle,
      [QuizQuestion(questionId, QuestionText, QuestionOptions, 1, Some(QuestionExplanation))],
      None, None)
  }

  /** The ids minted for one generation. */
  datatype GeneratedIds = GeneratedIds(card1: string, card2: string, quiz: string, question: string)

  /**
   * The patch `generateContent` sends for project `p`: its flashcards and
   * quizzes, each followed by the generated ones.
   */
  function GeneratePatch(p: Project, cards: seq<Flashcard>, quiz: Quiz): (u: ProjectPatch)
    ensures u.flashcards.Some? && u.quizzes.Some?
    ensures |u.flashcards.value| == |p.flashcards| + |cards| && u.flashcards.value[..|p.flashcards|] == p.flashcards
    ensures |u.quizzes.value| == |p.quizzes| + 1 && u.quizzes.value[..|p.quizzes|] == p.quizzes
    ensures u.quizzes.value[|p.quizzes|] == quiz
  {
    EmptyPatch.(flashcards := Some(p.flashcards + cards), quizzes := Some(p.quizzes + [quiz]))
  }

  /**
   * Applying the generation patch to the project it was built from keeps
   * everything but the two sequences and the timestamp.
   */
  lemma GenerateMerge(p: Project, cards: seq<Flashcard>, quiz: Quiz, now: nat)
    ensures var r := Merge(p, GeneratePatch(p, cards, quiz), now);
      && r == p.(flashcards := p.flashcards + cards, quizzes := p.quizzes + [quiz], updatedAt := now)
  {
  }

  datatype GenerateOutcome = EmptyTranscription | Generated | NoCurrentProject

  /** The text area of the view. */
  class Editor {
    var transcriptionText: string

    constructor ()
      ensures transcriptionText == ""
    {
      transcriptionText := "";
    }

    /** The text area's change handler. */
    method EditText(text: string)
      modifies this
      ensures transcriptionText == text
    {
      transcriptionText := text;
    }

    /**
     * `handleSaveTranscription`: the text goes into the current project's
     * `transcription` field, and nothing else of the project changes but its
     * timestamp. Without a current project nothing happens.
     */
    method SaveTranscription(store: AppStore.Store, now: nat)
      modifies store
      ensures old(store.currentProject).None? ==> unchanged(store)
      ensures old(store.currentProject).Some? ==>
        var cp := old(store.currentProject).value;
        && store.projects == AppStore.UpdateById(old(store.projects), cp.id,
             EmptyPatch.(transcription := Some(transcriptionText)), now)
        && store.currentProject == Some(cp.(transcription := Some(transcriptionText), updatedAt := now))
      ensures store.SameSession() && store.SameChat() && store.SameUi()
      ensures old(store.Consistent()) ==> store.Consistent()
    {
      if store.currentProject.Some? {
        var cp := store.currentProject.value;
        store.UpdateProject(cp.id, EmptyPatch.(transcription := Some(transcriptionText)), now);
      }
    }

    /**
     * `generateContent`: refuses a transcription that is blank once trimmed;
     * otherwise appends the generated flashcards and quiz to the current
     * project, when there is one.
     */
    method GenerateContent(store: AppStore.Store, ids: GeneratedIds, now: nat) returns (outcome: GenerateOutcome)
      modifies store
      ensures outcome == EmptyTranscription <==> Text.Trim(transcriptionText) == []
      ensures outcome == NoCurrentProject <==> Text.Trim(transcriptionText) != [] && old(store.currentProject).None?
      ensures outcome != Generated ==> unchanged(store)
      ensures outcome == Generated ==>
        var cp := old(store.currentProject).value;
        var u := GeneratePatch(cp, MockFlashcards(ids.card1, ids.card2), MockQuiz(ids.quiz, ids.question));
        && store.projects == AppStore.UpdateById(old(store.projects), cp.id, u, now)
        && store.currentProject == Some(cp.(
             flashcards := cp.flashcards + MockFlashcards(ids.card1, ids.card2),
             quizzes := cp.quizzes + [MockQuiz(ids.quiz, ids.question)],
             updatedAt := now))
      ensures store.SameSession() && store.SameChat() && store.SameUi()
      ensures old(store.Consistent()) ==> store.Consistent()
    {
      if Text.Trim(transcriptionText) == [] {
        return EmptyTranscription;
      }
      if store.currentProject.Some? {
        var cp := store.currentProject.value;
        var u := GeneratePatch(cp, MockFlashcards(ids.card1, ids.card2), MockQuiz(ids.quiz, ids.question));
        GenerateMerge(cp, MockFlashcards(ids.card1, ids.card2), MockQuiz(ids.quiz, ids.question), now);
        store.UpdateProject(cp.id, u, now);
        outcome := Generated;
      } else {
        outcome := NoCurrentProject;
      }
    }
  }
}
