/**
 * The application shell: which view is shown, the scenario in training, the
 * evaluation on display, the language, and the list of finished sessions,
 * which is kept in memory and written in full to browser storage.
 *
 * The evaluation endpoint, the parser of its JSON answer, the session id,
 * the clock and the outcome of the storage write are method parameters.
 */
module App {
  import opened Types
  import GeminiService
  import Dashboard

  datatype View = Home | Training | EvaluationView | DashboardView

  /** The alert shown when evaluating or saving fails. */
  const EvaluationAlert := "Something went wrong during evaluation. Please try again."

  /** The session a successful evaluation records. */
  function NewSession(id: string, scenario: Scenario, timestamp: int, transcript: seq<Entry>,
                      evaluation: Evaluation): (s: TrainingSession)
    ensures s.scenarioId == scenario.id && s.transcript == transcript && s.evaluation == Some(evaluation)
    ensures s.id == id && s.timestamp == timestamp
  {
    TrainingSession(id, scenario.id, timestamp, transcript, Some(evaluation))
  }

  class AppState {
    var activeView: View
    var selectedScenario: Option<Scenario>
    var currentEvaluation: Option<Evaluation>
    var language: Language
    var sessions: seq<TrainingSession>
    var isEvaluating: bool
    /** What the storage key holds, `None` while nothing was written. */
    var stored: Option<seq<TrainingSession>>

    /**
     * The first render and the mount effect: the home view in English, and
     * the sessions read back from storage when something was saved there.
     */
    constructor (saved: Option<seq<TrainingSession>>)
      ensures activeView == Home && selectedScenario.None? && currentEvaluation.None?
      ensures language == English && !isEvaluating
      ensures sessions == (if saved.Some? then saved.value else [])
      ensures stored == saved
    {
      activeView := Home;
      selectedScenario := None;
      currentEvaluation := None;
      language := English;
      isEvaluating := false;
      stored := saved;
      sessions := [];
      if saved.Some? {
        sessions := saved.value;
      }
    }

    /** Choosing a scenario card records it and opens the training view. */
    method SelectScenario(scenario: Scenario)
      modifies this`selectedScenario, this`activeView
      ensures selectedScenario == Some(scenario) && activeView == Training
    {
      selectedScenario := Some(scenario);
      activeView := Training;
    }

    /** The header's "Training Scenarios" and "My Dashboard" buttons. */
    method Navigate(view: View)
      requires view == Home || view == DashboardView
      modifies this`activeView
      ensures activeView == view
    {
      activeView := view;
    }

    /** The language buttons. */
    method SetLanguage(l: Language)
      modifies this`language
      ensures language == l
    {
      language := l;
    }

    /**
     * `handleFinishTraining`. With no scenario selected nothing changes and
     * nothing is sent. Otherwise the evaluation request for the transcript is
     * sent; `response` is `None` when the request failed and otherwise the
     * response text, which `parse` reads as `JSON.parse` would. On success
     * the new session is appended, the whole list is written to storage,
     * and the evaluation view opens. A failed request changes nothing but
     * shows the alert; a failed storage write leaves the appended session in
     * memory but neither storage nor the view changes. The busy flag is off
     * on every path.
     */
    method FinishTraining(transcript: seq<Entry>, response: Option<Option<string>>,
                          parse: string -> Option<Evaluation>, id: string, timestamp: int, storageOk: bool)
      returns (request: Option<string>, alert: Option<string>)
      modifies this`sessions, this`stored, this`currentEvaluation, this`activeView, this`isEvaluating
      ensures old(selectedScenario).None? ==>
                request.None? && alert.None? && sessions == old(sessions) && stored == old(stored)
                && currentEvaluation == old(currentEvaluation) && activeView == old(activeView)
                && isEvaluating == old(isEvaluating)
      ensures old(selectedScenario).Some? ==>
                var scenario := old(selectedScenario).value;
                && request == Some(GeminiService.EvaluationRequest(scenario, transcript))
                && !isEvaluating
      ensures old(selectedScenario).Some? && response.None? ==>
                alert == Some(EvaluationAlert) && sessions == old(sessions) && stored == old(stored)
                && currentEvaluation == old(currentEvaluation) && activeView == old(activeView)
      ensures old(selectedScenario).Some? && response.Some? ==>
                var evaluation := GeminiService.EvaluateResponse(response.value, parse);
                var session := NewSession(id, old(selectedScenario).value, timestamp, transcript, evaluation);
                && sessions == old(sessions) + [session]
                && (storageOk ==>
                      alert.None? && stored == Some(sessions)
                      && currentEvaluation == Some(evaluation) && activeView == EvaluationView)
                && (!storageOk ==>
                      alert == Some(EvaluationAlert) && stored == old(stored)
                      && currentEvaluation == old(currentEvaluation) && activeView == old(activeView))
    {
      if selectedScenario.None? {
        return None, None;
      }
      var scenario := selectedScenario.value;
      isEvaluating := true;
      request := Some(GeminiService.EvaluationRequest(scenario, transcript));
      alert := None;
      if response.None? {
        alert := Some(EvaluationAlert);
      } else {
        var evaluation := GeminiService.EvaluateResponse(response.value, parse);
        var newSession := TrainingSession(id, scenario.id, timestamp, transcript, Some(evaluation));
        var updatedSessions := sessions + [newSession];
        sessions := updatedSessions;
        if storageOk {
          stored := Some(updatedSessions);
          currentEvaluation := Some(evaluation);
          activeView := EvaluationView;
        } else {
          alert := Some(EvaluationAlert);
        }
      }
      isEvaluating := false;
    }

    /** The logo and "Back": selection and evaluation cleared, home view; sessions and language kept. */
    method Reset()
      modifies this`selectedScenario, this`currentEvaluation, this`activeView
      ensures selectedScenario.None? && currentEvaluation.None? && activeView == Home
    {
      selectedScenario := None;
      currentEvaluation := None;
      activeView := Home;
    }
  }

  /** Appending a session adds its overall score, if it has one, after the earlier scores. */
  lemma {:induction false} EvaluatedScoresAppend(sessions: seq<TrainingSession>, s: TrainingSession)
    ensures Dashboard.EvaluatedScores(sessions + [s])
         == Dashboard.EvaluatedScores(sessions) + (if s.evaluation.Some? then [s.evaluation.value.overallScore] else [])
    decreases |sessions|
  {
    if sessions == [] {
      assert [] + [s] == [s];
      assert [s][1..] == [];
    } else {
      var all := sessions + [s];
      assert all[0] == sessions[0];
      assert all[1..] == sessions[1..] + [s];
      EvaluatedScoresAppend(sessions[1..], s);
    }
  }

  /**
   * Every session a finish records is evaluated, so afterwards the
   * dashboard's average is a number, not NaN, and it has one more score.
   */
  lemma FinishedSessionIsScored(sessions: seq<TrainingSession>, id: string, scenario: Scenario,
                                timestamp: int, transcript: seq<Entry>, evaluation: Evaluation)
    ensures var after := sessions + [NewSession(id, scenario, timestamp, transcript, evaluation)];
            && |Dashboard.EvaluatedScores(after)| == |Dashboard.EvaluatedScores(sessions)| + 1
            && Dashboard.Average(after).Value?
  {
    EvaluatedScoresAppend(sessions, NewSession(id, scenario, timestamp, transcript, evaluation));
  }
}
