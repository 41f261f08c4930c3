/**
 * The data model of the application store: users, projects and the study
 * content they own (flashcards, quizzes), chat messages and the four
 * workspace views. Dates are instants on an abstract clock (`nat`), and
 * identifiers are plain strings minted outside the model.
 */
module Domain {

  datatype Option<+T> = None | Some(value: T)

  /** The identity record handed to `login`. */
  datatype User = User(id: string, name: string, email: string)

  datatype Difficulty = Easy | Medium | Hard

  datatype Flashcard = Flashcard(
    id: string,
    question: string,
    answer: string,
    difficulty: Difficulty,
    tags: seq<string>)

  /** `correctAnswer` is meant to index `options`; the type does not enforce it. */
  datatype QuizQuestion = QuizQuestion(
    id: string,
    question: string,
    options: seq<string>,
    correctAnswer: int,
    explanation: Option<string>)

  datatype Quiz = Quiz(
    id: string,
    title: string,
    questions: seq<QuizQuestion>,
    score: Option<int>,
    completedAt: Option<nat>)

  datatype Project = Project(
    id: string,
    name: string,
    audioFile: Option<string>,
    transcription: Option<string>,
    flashcards: seq<Flashcard>,
    quizzes: seq<Quiz>,
    createdAt: nat,
    updatedAt: nat)

  datatype Sender = UserSender | AiSender

  datatype ChatMessage = ChatMessage(id: string, content: string, sender: Sender, timestamp: nat)

  /** The closed set of workspace panes; there is no "no view" value. */
  datatype View = TranscriptionPane | FlashcardsPane | QuizPane | ChatPane

  /**
   * A partial project record: every field that is `Some` overwrites the
   * project's own. The project id is not part of a patch, so an update can
   * never rename a project.
   */
  datatype ProjectPatch = ProjectPatch(
    name: Option<string>,
    audioFile: Option<string>,
    transcription: Option<string>,
    flashcards: Option<seq<Flashcard>>,
    quizzes: Option<seq<Quiz>>,
    createdAt: Option<nat>,
    updatedAt: Option<nat>)

  /** The patch that sets nothing. */
  const EmptyPatch := ProjectPatch(None, None, None, None, None, None, None)

  function Pick<T>(patched: Option<T>, current: T): T {
    match patched
    case Some(v) => v
    case None => current
  }

  function PickOptional<T>(patched: Option<T>, current: Option<T>): Option<T> {
    if patched.Some? then patched else current
  }

  /**
   * Shallow merge `{ ...p, ...u, updatedAt: now }`: the patch wins over the
   * project, and the fresh timestamp wins over both.
   */
  function Merge(p: Project, u: ProjectPatch, now: nat): (r: Project)
    ensures r.id == p.id
    ensures r.updatedAt == now
    ensures r.name == (if u.name.Some? then u.name.value else p.name)
    ensures r.audioFile == (if u.audioFile.Some? then u.audioFile else p.audioFile)
    ensures r.transcription == (if u.transcription.Some? then u.transcription else p.transcription)
    ensures r.flashcards == (if u.flashcards.Some? then u.flashcards.value else p.flashcards)
    ensures r.quizzes == (if u.quizzes.Some? then u.quizzes.value else p.quizzes)
    ensures r.createdAt == (if u.createdAt.Some? then u.createdAt.value else p.createdAt)
  {
    Project(
      p.id,
      Pick(u.name, p.name),
      PickOptional(u.audioFile, p.audioFile),
      PickOptional(u.transcription, p.transcription),
      Pick(u.flashcards, p.flashcards),
      Pick(u.quizzes, p.quizzes),
      Pick(u.createdAt, p.createdAt),
      now)
  }

  /** A project's timestamps are ordered: it was not updated before it was made. */
  predicate TimestampsOrdered(p: Project) {
    p.createdAt <= p.updatedAt
  }

  /**
   * With a clock that does not go backwards, a merge that leaves `createdAt`
   * alone keeps the timestamps ordered and never moves `updatedAt` back.
   */
  lemma MergeKeepsTimestamps(p: Project, u: ProjectPatch, now: nat)
    requires TimestampsOrdered(p) && p.updatedAt <= now && u.createdAt.None?
    ensures TimestampsOrdered(Merge(p, u, now))
    ensures p.updatedAt <= Merge(p, u, now).updatedAt
  {
  }

  /** The empty patch changes nothing but the timestamp. */
  lemma MergeEmptyPatch(p: Project, now: nat)
    ensures Merge(p, EmptyPatch, now) == p.(updatedAt := now)
  {
  }

  /** Merging twice with the same patch is merging once. */
  lemma MergeIdempotent(p: Project, u: ProjectPatch, now: nat)
    ensures Merge(Merge(p, u, now), u, now) == Merge(p, u, now)
  {
  }
}
