/**
 * The records shared by the training application: scenarios, transcript
 * entries, evaluation results and stored training sessions.
 */
module Types {

  datatype Option<+T> = None | Some(value: T)

  datatype Result<+T, +E> = Success(value: T) | Failure(error: E)

  /** An element of a Uint8Array. */
  newtype byte = x: int | 0 <= x < 256

  /** Who spoke a transcript entry. */
  datatype Sender = User | Ai {
    /** The tag the application writes for the sender. */
    function Name(): string {
      match this
      case User => "user"
      case Ai => "ai"
    }
  }

  /** One line of a conversation, `{ sender, text }`. */
  datatype Entry = Entry(sender: Sender, text: string)

  /** The staff role a scenario trains. */
  datatype Role = Host | Server | Manager | Bartender {
    /** The enum's string value. */
    function Name(): string {
      match this
      case Host => "HOST"
      case Server => "SERVER"
      case Manager => "MANAGER"
      case Bartender => "BARTENDER"
    }
  }

  datatype Difficulty = Easy | Medium | Hard

  /** The interface languages; their enum values are "en" and "es". */
  datatype Language = English | Spanish {
    function Code(): string {
      match this
      case English => "en"
      case Spanish => "es"
    }
  }

  datatype Scenario = Scenario(
    id: string,
    title: string,
    description: string,
    role: Role,
    difficulty: Difficulty,
    customerProfile: string,
    initialPrompt: string)

  /** The six scores (each meant to lie in 0..100) and the free-text feedback. */
  datatype Evaluation = Evaluation(
    politeness: int,
    clarity: int,
    speed: int,
    empathy: int,
    problemSolving: int,
    feedback: string,
    overallScore: int)

  /** A finished training session as it is kept in the session list. */
  datatype TrainingSession = TrainingSession(
    id: string,
    scenarioId: string,
    timestamp: int,
    transcript: seq<Entry>,
    evaluation: Option<Evaluation>)
}
